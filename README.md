# easy-imgui-rs core, modelled in Dafny

This project models the sequential logic of two files of easy-imgui-rs.

- The OpenGL renderer helpers in `dear_imgui_renderer/src/glr.rs`:
  - the dirty-tracked vertex buffer mirror `DynamicVertexArray`, with its sub-range view, the pair list and `NilVertexAttrib`;
  - the scoped state guards `PushViewport`, `BinderFramebuffer`, `BinderRenderbuffer` and `EnablerVertexAttribArray`;
  - the uniform and attribute catalogs built by `Program::from_source`, name lookup, and `Program::draw`;
  - the field matchers generated by the `attrib!` and `uniform!` macros, and `AttribField::detail`;
  - the multisample fallback search `try_renderbuffer_storage_multisample`;
  - `check_gl` and `to_gl_err`.
- The font and callback registries of the Dear ImGui wrapper in `dear_imgui/src/lib.rs`:
  - `Context::add_font`, `merge_font` and `set_size`;
  - the `pending_atlas` gate of `update_atlas` and its glyph-range choice;
  - `FontInfo::new` and `char_range`;
  - `Ui::push_callback` and `add_callback`.

The OpenGL driver is an abstract machine, `Gl.Context`. It holds the state the renderer reads or changes:

- the viewport;
- the draw, read, renderbuffer and array-buffer bindings;
- the set of enabled attribute slots;
- the current program;
- the pending error.

It also holds an ordered log of the state-changing and error-reading commands, the constructors of `Gl.Call`:

- error reads;
- viewport, framebuffer, renderbuffer and array-buffer bindings;
- enabling and disabling attribute slots, and attribute pointers;
- program use, uniform setters and draws;
- multisample storage.

Each of these command methods appends one log entry and changes only the state it names. This lets the renderer's operations be specified by the exact command sequence they issue and by the state they leave behind. The queries and object commands listed under "Left out" are not in the log.

Driver answers are inputs to the model:

- shader compile and link outcomes;
- the reflection lists and locations;
- buffer creation, and the error code of a failed creation;
- the error a draw call raises (NO_ERROR when it succeeds);
- the set of sample counts the driver accepts.

Module layout, one file each: `Wrappers`, `Gl`, `Guards`, `Attributes`, `Uniforms`, `Programs`, `VertexArray`, `Draw`, `Multisample` (all from `glr.rs`), and `Fonts`, `Callbacks` (from `lib.rs`).

Integer widths are explicit where they matter:

- the `GLint` type is the newtype `Gl.i32`;
- Rust's `usize as i32` casts of vertex counts, strides and byte offsets are modelled by `Gl.AsI32`, which keeps the low 32 bits.

## Model

| member | source | states |
|---|---|---|
| Gl.ErrorOutcome | dear_imgui_renderer/src/glr.rs:24-31 | the result is Ok exactly when the code is NO_ERROR, and otherwise an error carrying that code |
| Gl.CheckGl | dear_imgui_renderer/src/glr.rs:24-31 | reads (and so clears) the pending error once and reports `ErrorOutcome` of it; nothing else changes |
| Gl.ToGlErr | dear_imgui_renderer/src/glr.rs:33-35 | reports the pending error as a `GLError`, clearing it with one `glGetError` |
| Gl.AsI32Wraps | dear_imgui_renderer/src/glr.rs:238 | `as i32` keeps every value below 2^31 and always keeps the low 32 bits |
| Gl.AsI32Add | dear_imgui_renderer/src/glr.rs:703-706 | casting an offset plus a shift equals adding the shift, with 32-bit wrap-around, to the cast offset |
| Gl.Context.RaiseError | dear_imgui_renderer/src/glr.rs:262-276 | a failing shader, program or buffer creation, compile or link leaves its code pending unless an earlier error still is; it is not logged |
| Gl.Context.Draw | dear_imgui_renderer/src/glr.rs:238 | logs one draw call; the error the driver raises for it becomes pending unless an earlier error still is; nothing else changes |
| Gl.Context.StorageMultisample | dear_imgui_renderer/src/glr.rs:932 | a refused sample count raises INVALID_VALUE unless an error is already pending; an accepted count changes no state |
| Guards.PushViewport.New | dear_imgui_renderer/src/glr.rs:103-112 | captures the current viewport and changes nothing |
| Guards.PushViewport.Push | dear_imgui_renderer/src/glr.rs:113-117 | captures the viewport before setting the new rectangle, with one viewport command |
| Guards.PushViewport.Viewport | dear_imgui_renderer/src/glr.rs:118-122 | sets the viewport and nothing else, keeping the captured rectangle |
| Guards.PushViewport.Drop | dear_imgui_renderer/src/glr.rs:125-131 | restores the rectangle captured at construction, whatever happened in between |
| Guards.BinderRenderbuffer.Bind | dear_imgui_renderer/src/glr.rs:805-810 | binds the renderbuffer with one command |
| Guards.BinderRenderbuffer.Target | dear_imgui_renderer/src/glr.rs:811-813 | the target is RENDERBUFFER |
| Guards.BinderRenderbuffer.Rebind | dear_imgui_renderer/src/glr.rs:814-818 | binds another renderbuffer |
| Guards.BinderRenderbuffer.Drop | dear_imgui_renderer/src/glr.rs:820-826 | binds none (0), not the previous binding |
| Guards.CapturedFramebuffer | dear_imgui_renderer/src/glr.rs:870-879 | a captured binding of 0 becomes None, any other name Some of that name |
| Guards.BoundName | dear_imgui_renderer/src/glr.rs:900-906 | None binds 0 (the default framebuffer), Some binds its name |
| Guards.CaptureRoundTrip | dear_imgui_renderer/src/glr.rs:870-906 | binding what `new` captured restores exactly the binding read at construction |
| Guards.BinderFramebuffer.New | dear_imgui_renderer/src/glr.rs:870-879 | captures the target's current binding without changing state |
| Guards.BinderFramebuffer.Bind | dear_imgui_renderer/src/glr.rs:883-892 | binds the framebuffer to its own target only and records nothing to restore |
| Guards.BinderFramebuffer.Target | dear_imgui_renderer/src/glr.rs:880-882 | DRAW_FRAMEBUFFER for the draw binder, READ_FRAMEBUFFER for the read binder |
| Guards.BinderFramebuffer.Rebind | dear_imgui_renderer/src/glr.rs:893-898 | binds another framebuffer to the same target |
| Guards.BinderFramebuffer.Drop | dear_imgui_renderer/src/glr.rs:900-906 | binds the captured framebuffer (0 for none) on the guard's target only |
| Guards.EnablerVertexAttribArray.Enable | dear_imgui_renderer/src/glr.rs:78-87 | enables exactly its slot, with one command |
| Guards.EnablerVertexAttribArray.Drop | dear_imgui_renderer/src/glr.rs:89-95 | disables exactly the slot it enabled |
| Guards.DropAll | dear_imgui_renderer/src/glr.rs:89-95 | dropping a guard list disables each guard's slot once, in list order, and removes exactly those slots from the enabled set |
| Guards.EachSlotDisabledOncePerEnable | dear_imgui_renderer/src/glr.rs:78-95 | for every slot, the drops disable it as often as the guards enabled it, and re-enable nothing |
| Guards.NestedScopesRestore | dear_imgui_renderer/src/glr.rs:103-131 | an outer framebuffer binder and an inner viewport guard, dropped in LIFO order, leave the whole driver state as it was |
| Attributes.FieldDetailFaithful | dear_imgui_renderer/src/glr.rs:399-441 | the corrected detail's GL type has the byte size, signedness and integer-ness of the Rust scalar, and components times scalar size is the field's byte size |
| Attributes.AsWrittenAgreesAwayFromU8 | dear_imgui_renderer/src/glr.rs:399-441 | the detail as written equals the corrected one for every field whose scalar is not `u8` |
| Attributes.U8AsWrittenReadsNegative | dear_imgui_renderer/src/glr.rs:404-408 | as written, an unsigned `u8` is declared as signed BYTE, so the stored byte 200 is read as -56 |
| Attributes.U8ReadsBack | dear_imgui_renderer/src/glr.rs:404-408 | with UNSIGNED_BYTE every stored byte reads back as itself |
| Attributes.Scalar | dear_imgui_renderer/src/glr.rs:399-441 | arrays and vectors bottom out in one of the four scalar field types |
| Attributes.MatchAttribFirstField | dear_imgui_renderer/src/glr.rs:461-471 | the matcher finds nothing iff no field has the attribute's name, and otherwise the detail and offset of the first field with that name |
| Attributes.MatchedAttribWithinRecord | dear_imgui_renderer/src/glr.rs:461-471 | for a layout whose fields fit the record, a matched attribute's bytes lie within the record |
| Uniforms.ShaderName | dear_imgui_renderer/src/glr.rs:571-572 | the name is the field's own iff the field is not an array with a literal length; such an array's name is its own followed by `[0]` |
| Uniforms.ArrayFieldEffect | dear_imgui_renderer/src/glr.rs:559-572 | for the uniform the driver reports as `name[0]`, an array field with a literal length reaches `todo!()`, one whose length is a named constant is never matched and nothing is sent |
| Uniforms.Setter | dear_imgui_renderer/src/glr.rs:484-537 | every field type has a driver setter except arrays, whose `apply` is `todo!()` |
| Uniforms.MatchUniformFirstField | dear_imgui_renderer/src/glr.rs:559-567 | the matcher finds nothing iff no field's shader name equals the uniform's, and otherwise the first such field |
| Uniforms.UniformEffectFirstMatch | dear_imgui_renderer/src/glr.rs:559-567 | applying a uniform does nothing iff no field matches; otherwise it sends the first match's setter, or panics when that field is an array |
| Uniforms.ApplyUniform | dear_imgui_renderer/src/glr.rs:559-567 | issues exactly the commands of the uniform's effect; it succeeds iff the effect is not the `todo!()` panic; no state changes |
| Programs.CatalogAppend | dear_imgui_renderer/src/glr.rs:181-193 | the catalog of a concatenation is the concatenation of the catalogs, so driver index order is kept |
| Programs.CatalogSound | dear_imgui_renderer/src/glr.rs:181-208 | every catalog entry comes from a driver index whose active info and location both exist, with that name, location, size and type |
| Programs.CatalogComplete | dear_imgui_renderer/src/glr.rs:181-208 | every driver index whose active info and location both exist is in the catalog |
| Programs.CatalogBounded | dear_imgui_renderer/src/glr.rs:181-208 | the catalog has at most one entry per driver index |
| Programs.BuildCatalog | dear_imgui_renderer/src/glr.rs:181-193 | the `for` loop with its two `continue`s builds exactly the catalog |
| Programs.FindByName | dear_imgui_renderer/src/glr.rs:216-221 | the lookup is None iff no entry has that exact name; otherwise it is the first entry with that name |
| Programs.FromSource | dear_imgui_renderer/src/glr.rs:149-211 | purges the pending error first; the first failing stage (vertex, fragment, geometry, link) gives its error, read back with a second `get_error`; the result is Ok iff all succeed, and then holds the uniform and attribute catalogs; either way no error is left pending and no other state changes |
| VertexArray.UploadsInOrderExtend | dear_imgui_renderer/src/glr.rs:628-642 | an allowed upload keeps the log well formed; allocation sets the capacity, sub-data keeps it |
| VertexArray.CapacityNeverShrinks | dear_imgui_renderer/src/glr.rs:628-642 | the GPU allocation size never decreases along the upload log |
| VertexArray.Overwrite | dear_imgui_renderer/src/glr.rs:636-639 | a sub-data upload at offset 0 replaces the first records and keeps the rest of the GPU buffer |
| VertexArray.DynamicVertexArray.Init | dear_imgui_renderer/src/glr.rs:598-605 | stores the data with `buf_len = 0` and `dirty` set |
| VertexArray.DynamicVertexArray.Len | dear_imgui_renderer/src/glr.rs:606-608 | the length is the number of client-side records |
| VertexArray.DynamicVertexArray.Set | dear_imgui_renderer/src/glr.rs:609-612 | replaces the data and always sets `dirty`, leaving the GPU side as it was |
| VertexArray.DynamicVertexArray.Index | dear_imgui_renderer/src/glr.rs:647-653 | reads record `i` and changes nothing |
| VertexArray.DynamicVertexArray.IndexMut | dear_imgui_renderer/src/glr.rs:655-660 | writes record `i` and always sets `dirty` |
| VertexArray.DynamicVertexArray.BindBuffer | dear_imgui_renderer/src/glr.rs:622-644 | empty data: nothing at all; clean data: only the bind. Dirty data: reallocation when it outgrew `buf_len`, otherwise sub-data at offset 0; then `dirty` is clear, the GPU mirrors the data and `buf_len >= len`; the new GPU side is `AfterBind` of the old one |
| VertexArray.FromData | dear_imgui_renderer/src/glr.rs:598-605 | fails iff buffer creation fails; the failure raises the driver's code and `to_gl_err` reports the error then pending, the creation's unless an earlier one was; otherwise a fresh array holding the data, dirty, with `buf_len = 0` |
| VertexArray.New | dear_imgui_renderer/src/glr.rs:595-597 | `from_data` with no data: fails iff buffer creation fails, reporting the creation's error unless an earlier one was pending; otherwise a fresh empty array, dirty, with `buf_len = 0`, an empty GPU side and no uploads, and no driver state changed |
| VertexArray.AfterBindIdempotent | dear_imgui_renderer/src/glr.rs:622-644 | binding twice in a row uploads nothing the second time |
| VertexArray.AfterBindMirrors | dear_imgui_renderer/src/glr.rs:622-644 | from a consistent GPU side, binding records leaves them clean and mirrored at the start of a buffer at least as large as before and as the records, with at most one new upload |
| VertexArray.WritesThenBind | dear_imgui_renderer/src/glr.rs:609-660 | after any sequence of `set` and `index_mut` writes, `bind_buffer` leaves a non-empty array mirrored and clean, and `buf_len` never shrinks |
| Draw.Len | dear_imgui_renderer/src/glr.rs:356-360 | a whole array reports its length, a sub-view `end - start` (0 for an empty range), `NilVertexAttrib(n)` reports n |
| Draw.PairLen | dear_imgui_renderer/src/glr.rs:575-579 | a pair reports the minimum of its two lengths |
| Draw.SubViewShiftsOffsets | dear_imgui_renderer/src/glr.rs:697-711 | a sub-view's attribute pointers are the whole array's pointers with every offset shifted by `size_of::<A>() * start` |
| Draw.BindAttribute | dear_imgui_renderer/src/glr.rs:674-678 | a guard is made iff the attribute matches a field; it enables the attribute's location and issues its pointer |
| Draw.BindAttributes | dear_imgui_renderer/src/glr.rs:673-679 | one guard per matched catalog attribute, in catalog order, enabling exactly those slots |
| Draw.BindArray | dear_imgui_renderer/src/glr.rs:669-682 | `bind_buffer`, then the attribute loop; the array's GPU side becomes `AfterBind` of the old one, with `bind_buffer`'s three cases |
| Draw.Bind | dear_imgui_renderer/src/glr.rs:356-363 | binding issues exactly the list's bind commands and enables exactly its slots, and every array of the list gets `AfterBind` of its GPU side; `NilVertexAttrib` binds nothing |
| Draw.BindView | dear_imgui_renderer/src/glr.rs:669-711 | the whole-array and sub-view `bind`s issue their bind commands, enable exactly their slots, and give the array `AfterBind` of its GPU side |
| Draw.BindPair | dear_imgui_renderer/src/glr.rs:580-584 | a pair binds its first component, then its second, and keeps both guard lists; an array in both components is uploaded at most once, so each array gets `AfterBind` of its GPU side |
| Draw.ApplyUniforms | dear_imgui_renderer/src/glr.rs:233-235 | applies the uniforms once each in catalog order, stopping at the first `todo!()` panic |
| Draw.ImplementedPrefixStops | dear_imgui_renderer/src/glr.rs:233-235 | every uniform before the stop point is applicable, and the uniform at the stop point panics |
| Draw.DrawAndDrop | dear_imgui_renderer/src/glr.rs:238-242 | draws, then `check_gl` reports the error the draw raised, or the earlier one still pending, and clears it; then drops the guards |
| Draw.UseWithUniforms | dear_imgui_renderer/src/glr.rs:231-235 | uses the program, then applies the uniforms until one panics |
| Draw.BindAndDraw | dear_imgui_renderer/src/glr.rs:237-242 | binds, draws `len` vertices from 0, reports the draw's error unless an earlier one is pending, and disables exactly the slots the bind enabled; every array gets `AfterBind` of its GPU side and ends clean exactly when it has records |
| Draw.BoundListMirrored | dear_imgui_renderer/src/glr.rs:622-644 | once a list is bound, each of its arrays with records is clean and mirrored by the start of a GPU buffer at least as long |
| Draw.DrawProgram | dear_imgui_renderer/src/glr.rs:222-243 | no vertices: nothing happens, arrays included. A panicking uniform stops after the commands before it and uploads nothing. Otherwise exactly the draw sequence, and the check reports the draw's error unless an earlier one was pending; the state differs only in program, array buffer, enabled slots and the cleared error; every array gets `AfterBind` of its GPU side and ends clean exactly when it has records |
| Draw.PointerCallsEnables | dear_imgui_renderer/src/glr.rs:673-679 | the attribute loop enables each slot as often as the guards it keeps hold it, and disables none |
| Draw.BindCallsEnables | dear_imgui_renderer/src/glr.rs:356-363 | in the commands a list's `bind` issues, each slot is enabled as often as the returned guards hold it, and none is disabled |
| Draw.DrawTailBalanced | dear_imgui_renderer/src/glr.rs:237-242 | over bind, draw, check and guard drops, every slot is disabled exactly as often as it was enabled |
| Draw.DrawTailOneDraw | dear_imgui_renderer/src/glr.rs:237-242 | the bind, draw, check and drop sequence contains exactly one draw, of `len` vertices |
| Draw.DrawIssuesOneDraw | dear_imgui_renderer/src/glr.rs:222-243 | a non-empty `draw` issues exactly one `draw_arrays(primitive, 0, len as i32)` |
| Multisample.FirstAcceptedIsFirst | dear_imgui_renderer/src/glr.rs:926-939 | the search finds nothing iff no count is accepted; otherwise the first accepted count, which is the last tried |
| Multisample.SkipRejected | dear_imgui_renderer/src/glr.rs:928-936 | counts known to be refused can be skipped without changing the result |
| Multisample.AttemptsInOrder | dear_imgui_renderer/src/glr.rs:928-936 | the attempts try the counts in order, and each storage command directly follows an error purge |
| Multisample.TryRenderbufferStorageMultisample | dear_imgui_renderer/src/glr.rs:926-939 | returns the first of 16, 8, 4, 2 the driver accepts (None if none), after one purge, storage and check per count tried; leaves no error pending |
| Multisample.FourSamplesAfterTwoRefusals | dear_imgui_renderer/src/glr.rs:926-939 | a driver that refuses 16 and 8 but takes 4 gets 4 on the third attempt |
| Fonts.NewFont | dear_imgui/src/lib.rs:124-132 | a new font's range list is just the `[0, 0]` terminator |
| Fonts.CharRange | dear_imgui/src/lib.rs:133-137 | the terminator becomes `[from, to]` and a new terminator follows; the list grows by one, earlier ranges and the other fields are kept |
| Fonts.WithRanges | dear_imgui/src/lib.rs:133-137 | a chain of `char_range` calls grows the list by one per call |
| Fonts.BuilderRanges | dear_imgui/src/lib.rs:124-137 | a new font after `char_range` calls has exactly the given ranges in order plus the terminator, not merged, with id 0 |
| Fonts.GlyphRangesOnlyWhenSet | dear_imgui/src/lib.rs:75-87 | such a font passes a glyph-range list iff a range was set, and that list is the ranges plus the terminator; size is scaled |
| Fonts.AtlasFonts | dear_imgui/src/lib.rs:65-88 | one atlas entry per font |
| Fonts.AtlasFontsAt | dear_imgui/src/lib.rs:65-88 | entry `i` of the atlas is built from font `i` |
| Fonts.AtlasGlyphRanges | dear_imgui/src/lib.rs:71-79 | font `i` passes its ranges iff it has more than the terminator, null otherwise, with its own merge mode |
| Fonts.IdsChainedExtend | dear_imgui/src/lib.rs:41-57 | appending a font with the next id, or a merged font with its predecessor's id, keeps the id chain |
| Fonts.IdsBelowNext | dear_imgui/src/lib.rs:41-51 | every id in the chain is below the next id `add_font` hands out |
| Fonts.Context.constructor | dear_imgui/src/lib.rs:17-33 | no fonts and an atlas build pending |
| Fonts.Context.SetSize | dear_imgui/src/lib.rs:34-40 | records the scale and requests a rebuild |
| Fonts.Context.AddFont | dear_imgui/src/lib.rs:41-51 | id 0 on an empty list, else the last id plus one, larger than every id before; the font is appended with it, a rebuild is requested |
| Fonts.Context.MergeFont | dear_imgui/src/lib.rs:52-57 | the font is appended merged and with the last font's id; a rebuild is requested; the id chain is kept |
| Fonts.Context.UpdateAtlas | dear_imgui/src/lib.rs:58-90 | returns false with no effect when no rebuild is pending; otherwise clears the flag, rebuilds the atlas from every font in order, returns true |
| Callbacks.Ids | dear_imgui/src/lib.rs:196-205 | the ids 0 to n-1 in order |
| Callbacks.CountAbove | dear_imgui/src/lib.rs:196-205 | an id no earlier run can name has never run |
| Callbacks.Ui.constructor | dear_imgui/src/lib.rs:97-101 | `do_frame` starts a frame with an empty callback list |
| Callbacks.Ui.PushCallback | dear_imgui/src/lib.rs:196-205 | returns the list length before the push and appends the closure |
| Callbacks.Ui.AddCallback | dear_imgui/src/lib.rs:518-529 | registers a fresh run-once closure holding the callback, and puts its id into the draw list |
| Callbacks.Ui.RunCallback | dear_imgui/src/lib.rs:206-214 | a repeating closure runs every time; a run-once closure only while it holds its callback, and gives it up |
| Callbacks.Ui.RunRepeatedly | dear_imgui/src/lib.rs:518-529 | however often it is invoked, an `add_callback` closure runs the user callback at most once, on the first invocation if it still held it |
| Callbacks.FrameCallbacks | dear_imgui/src/lib.rs:97-101 | within a frame, successive `add_callback`s put the ids 0, 1, 2, … into the draw list, each holding its callback |

## Left out

- All real OpenGL and Dear ImGui behaviour. The driver is the abstract `Gl.Context`, and its answers are inputs: compile and link status, reflection lists and locations, object creation, accepted sample counts.
- Shader compilation itself (`Shader::compile`) is an input outcome per stage. The info-log printing (`eprintln!`) in `from_source` and `draw`, and `GLError`'s Display formatting, are not modelled.
- Object lifetimes: `Drop` of `Program`, `Shader`, `Buffer`, `Texture`, `VertexArray`, `Renderbuffer` and `Framebuffer`, and the `Rc` reference counting. Guard drops are explicit method calls. Nested guard scopes are dropped innermost first. The enablers a bind returns are dropped in creation order, as the drops of a `SmallVec` and of a tuple do. Unwinding after a panic is not modelled.
- Raw memory: `as_u8_slice` and `memoffset::offset_of!`. The record size and the field offsets are given naturals of `Attributes.RecordLayout`. Uploads carry the records, not their bytes.
- Float payloads: the `Rgba`, cgmath vectors and matrices, and the values behind `glUniform*`. A uniform command records its setter, location and field name only.
- The `#[cfg(xxx)]` slice implementation of `AttribProviderList`: it is not compiled.
- Attributes.MatchAttribFirstField: the matcher reports the corrected detail, UNSIGNED_BYTE for a `u8` field, where `AttribField for u8` as written gives BYTE (see Findings). `Attributes.DetailAsWritten` models the code as written.
- Draw.BindAttribute, Draw.BindAttributes, Draw.BindArray, Draw.Bind, Draw.BindView, Draw.BindPair, Draw.BindAndDraw and Draw.DrawProgram issue attribute pointers with the corrected detail, so a `u8` field's pointer says UNSIGNED_BYTE where the source sends BYTE.
- Gl.Context: the log leaves out the `glGetIntegerv` viewport and framebuffer-binding queries (`PushViewport::new`, `BinderFramebuffer::new`), which are reads. It also leaves out `create_shader`, `shader_source`, `compile_shader`, `create_program`, `attach_shader`, `link_program`, the status and info-log queries and the reflection queries of `from_source`, whose answers are inputs. `buffer_data` and `buffer_sub_data` are recorded in each array's own upload log instead.
- Gl.Context: only the draw call, multisample storage and the failing creation, compile and link commands raise driver errors. Bindings, attribute slots, attribute pointers and uniform setters never raise one. Because the error flag keeps the first error, a draw's `raised` can stand for the first error of the whole draw sequence, and `check_gl` then reports the same code.
- Uniforms.ApplyUniform: the `uniform!` expansion calls `UniformField::apply` with three arguments, `(&self.$f, 1, u.location())`, where the trait method takes four (`gl`, `count`, `location` after `self`). `UniformProvider::apply` has no context to pass, so the code as written does not compile. The model follows the evident intent: the field's setter is sent to the uniform's location.
- Programs.FromSource: a failing compile, link or creation is one `Gl.Context.RaiseError` with the driver's code, not the individual driver commands.
- Draw.Pair: both components of a pair share one vertex type `A`; the source allows two different vertex types.
- Draw.DrawProgram: the guards disable the slots the bind enabled. A slot that was already enabled before `draw` therefore ends disabled, as in the source. The model states the resulting enabled set as the old set minus the bound slots.
- VertexArray.DynamicVertexArray.Index and IndexMut require an in-range index; the source panics on an out-of-range one.
- Fonts.CharRange requires a non-empty range list, because `last_mut().unwrap()` panics otherwise. Fonts built by `FontInfo::new` always satisfy this.
- Fonts.Context.MergeFont requires a non-empty font list, because `expect` panics otherwise.
- Fonts: the font size and scale are reals, not `f32`, and a glyph range's bounds are naturals, not 16-bit `ImWchar`s; the model computes nothing on them. `set_size`'s display size and `FontGlobalScale` are not modelled, and neither are the `ImFontConfig` fields other than the merge mode.
- Callbacks: the user data, the argument read through `std::ptr::read` and the `BackendLanguageUserData` pointer are not modelled. A user callback is an opaque action id; the model records which closures ran it.
- Callbacks.Ui.PushCallback requires a closure not already in the list, because every boxed closure is a new allocation.
- The window, child, group and font wrappers of `Ui`; `WindowDrawList::add_*`; `SizeCallbackData` and its callback; the `extern "C"` trampolines; `font_ptr`, `text_ptrs` and `IntoCStr`. These only forward calls to Dear ImGui.
- `dear_imgui-sys/wrapper.cpp` has no logic and is not part of this model.

## Findings

| source | as written | input that shows it | evidently intended | confidence | as-written member | corrected member |
|---|---|---|---|---|---|---|
| dear_imgui_renderer/src/glr.rs:404-408 | `AttribField for u8` declares its component as `glow::BYTE`, which is signed | a `u8` field holding 200 is read by the driver as -56 | `glow::UNSIGNED_BYTE`, which matches the unsigned Rust type | not executed | Attributes.U8AsWrittenReadsNegative | Attributes.U8ReadsBack |
