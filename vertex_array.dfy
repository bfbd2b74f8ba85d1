/**
  * `DynamicVertexArray` (glr.rs): a client-side list of vertex records mirrored
  * into one GPU array buffer. Writes only mark the mirror dirty; the upload
  * happens lazily in `bind_buffer`, either in place at offset 0 or by
  * reallocating the buffer when the data outgrew it.
  *
  * The GPU buffer is modelled, in records, by `gpu`, and every upload the
  * array issues is kept in `uploads`.
  */
module VertexArray {
  import opened Wrappers
  import opened Gl
  import opened Attributes

  /** One upload into the array buffer, counted in records. */
  datatype Upload =
    | BufferData(len: nat)                    // `buffer_data_u8_slice`: reallocates to `len`
    | BufferSubData(offset: nat, len: nat)    // `buffer_sub_data_u8_slice`: overwrites in place

  /** The size of the GPU buffer after the uploads of `log`. */
  function Capacity(log: seq<Upload>): nat
  {
    if log == [] then 0
    else if log[|log| - 1].BufferData? then log[|log| - 1].len
    else Capacity(log[..|log| - 1])
  }

  /**
    * How `bind_buffer` may upload into a buffer of capacity `cap`: a reallocation
    * only to grow it, an in-place upload only at offset 0, non-empty and fitting.
    */
  predicate UploadAllowed(cap: nat, u: Upload)
  {
    match u
    case BufferData(n) => n > cap
    case BufferSubData(offset, n) => offset == 0 && 0 < n <= cap
  }

  /** Every upload of the log was allowed at the moment it was issued. */
  ghost predicate UploadsInOrder(log: seq<Upload>)
  {
    log == [] ||
    (UploadsInOrder(log[..|log| - 1]) && UploadAllowed(Capacity(log[..|log| - 1]), log[|log| - 1]))
  }

  lemma UploadsInOrderExtend(log: seq<Upload>, u: Upload)
    requires UploadsInOrder(log) && UploadAllowed(Capacity(log), u)
    ensures UploadsInOrder(log + [u])
    ensures Capacity(log + [u]) == if u.BufferData? then u.len else Capacity(log)
  {
    assert (log + [u])[..|log|] == log;
  }

  /** The buffer only ever grows: at no point does a later capacity fall below an earlier one. */
  lemma {:induction false} CapacityNeverShrinks(log: seq<Upload>, i: nat, j: nat)
    requires UploadsInOrder(log) && i <= j <= |log|
    ensures Capacity(log[..i]) <= Capacity(log[..j])
  {
    if log != [] {
      var init := log[..|log| - 1];
      if j < |log| {
        assert init[..i] == log[..i];
        assert init[..j] == log[..j];
        CapacityNeverShrinks(init, i, j);
      } else if i < j {
        assert init[..i] == log[..i];
        assert init[..|init|] == init;
        CapacityNeverShrinks(init, i, |init|);
        assert log[..j] == log;
      }
    }
  }

  /** The GPU buffer of records after `data` is written in place at offset 0. */
  function Overwrite<A>(gpu: seq<A>, data: seq<A>): (r: seq<A>)
    requires |data| <= |gpu|
    ensures |r| == |gpu|
    ensures r[..|data|] == data
    ensures forall k :: |data| <= k < |gpu| ==> r[k] == gpu[k]
  {
    data + gpu[|data|..]
  }

  /** The GPU side of an array: dirty flag, allocated size, buffer contents and upload log. */
  datatype Mirror<A> = Mirror(dirty: bool, bufLen: nat, gpu: seq<A>, uploads: seq<Upload>)

  /**
    * The GPU side `bind_buffer` leaves for the records `data`: unchanged when
    * there are no records or the mirror is clean; otherwise reallocated to
    * the records when they outgrew the buffer, else overwritten at offset 0,
    * and clean.
    */
  function AfterBind<A>(m: Mirror<A>, data: seq<A>): (r: Mirror<A>)
    requires |m.gpu| == m.bufLen
    ensures |r.gpu| == r.bufLen
  {
    if data == [] || !m.dirty then m
    else if |data| > m.bufLen then Mirror(false, |data|, data, m.uploads + [BufferData(|data|)])
    else Mirror(false, m.bufLen, Overwrite(m.gpu, data), m.uploads + [BufferSubData(0, |data|)])
  }

  /** Binding twice in a row uploads nothing the second time. */
  lemma AfterBindIdempotent<A>(m: Mirror<A>, data: seq<A>)
    requires |m.gpu| == m.bufLen
    ensures AfterBind(AfterBind(m, data), data) == AfterBind(m, data)
  {
  }

  /**
    * A bind leaves the array dirty exactly when it has no records, for an
    * array that is dirty whenever it has none (as `Valid` demands).
    */
  lemma AfterBindDirtyIffEmpty<A>(m: Mirror<A>, data: seq<A>)
    requires |m.gpu| == m.bufLen
    requires data == [] ==> m.dirty
    ensures AfterBind(m, data).dirty <==> data == []
  {
  }

  /**
    * From a consistent mirror, binding non-empty records leaves them clean and
    * mirrored at the start of a buffer at least as large as before and as
    * the records; the upload log grows by at most one upload.
    */
  lemma AfterBindMirrors<A>(m: Mirror<A>, data: seq<A>)
    requires |m.gpu| == m.bufLen && data != []
    requires !m.dirty ==> |data| <= m.bufLen && m.gpu[..|data|] == data
    ensures var r := AfterBind(m, data);
      !r.dirty && r.bufLen >= |data| && r.bufLen >= m.bufLen && r.gpu[..|data|] == data &&
      (r.uploads == m.uploads || (m.dirty && |r.uploads| == |m.uploads| + 1 && r.uploads[..|m.uploads|] == m.uploads))
  {
  }

  class DynamicVertexArray<A> {
    const gl: Context
    /** Name of the GPU array buffer (`buf`). */
    const buffer: ObjectId
    /** The record type's layout: its size and the fields `attrib!` declares. */
    const layout: RecordLayout
    /** The client-side records. */
    var data: seq<A>
    /** The number of records the GPU buffer was last created for. */
    var bufLen: nat
    var dirty: bool
    /** The GPU buffer's contents, in records. */
    var gpu: seq<A>
    /** Every upload issued into the GPU buffer, oldest first. */
    var uploads: seq<Upload>

    /**
      * The buffer's size is what the uploads left it at, every upload was
      * allowed, and a clean array is non-empty and mirrored by the buffer.
      */
    ghost predicate Valid()
      reads this
    {
      bufLen == Capacity(uploads) && UploadsInOrder(uploads) && |gpu| == bufLen &&
      (!dirty ==> 0 < |data| <= bufLen && gpu[..|data|] == data)
    }

    /** A clean array's records are exactly the first records of the GPU buffer. */
    ghost predicate Mirrored()
      reads this
    {
      |data| <= |gpu| && gpu[..|data|] == data
    }

    constructor Init(gl: Context, buffer: ObjectId, layout: RecordLayout, data: seq<A>)
      ensures this.gl == gl && this.buffer == buffer && this.layout == layout
      ensures this.data == data && bufLen == 0 && dirty
      ensures gpu == [] && uploads == []
      ensures Valid()
    {
      this.gl, this.buffer, this.layout := gl, buffer, layout;
      this.data := data;
      bufLen, dirty := 0, true;
      gpu, uploads := [], [];
    }

    /** The GPU side of the array. */
    function MirrorState(): (m: Mirror<A>)
      reads this
      ensures m.dirty == dirty && m.bufLen == bufLen && m.gpu == gpu && m.uploads == uploads
    {
      Mirror(dirty, bufLen, gpu, uploads)
    }

    /** `len`: the number of client-side records. */
    function Len(): (n: nat)
      reads this
      ensures n == |data|
    {
      |data|
    }

    /** `set`: replaces the records and marks the mirror dirty, whatever the new data. */
    method Set(data: seq<A>)
      requires Valid()
      modifies this
      ensures Valid()
      ensures this.data == data && dirty
      ensures bufLen == old(bufLen) && gpu == old(gpu) && uploads == old(uploads)
    {
      this.data := data;
      dirty := true;
    }

    /** `Index::index`: reads one record and changes nothing. */
    method Index(i: nat) returns (v: A)
      requires i < |data|
      ensures v == data[i]
    {
      v := data[i];
    }

    /**
      * `IndexMut::index_mut` followed by a write of `v` through the returned
      * reference: the mirror is marked dirty even if `v` equals the old record.
      */
    method IndexMut(i: nat, v: A)
      requires Valid() && i < |data|
      modifies this
      ensures Valid()
      ensures data == old(data)[i := v] && dirty
      ensures bufLen == old(bufLen) && gpu == old(gpu) && uploads == old(uploads)
    {
      data := data[i := v];
      dirty := true;
    }

    /**
      * `bind_buffer`: nothing at all for an empty array; otherwise binds the
      * buffer and, when dirty, reallocates it to the data if the data outgrew
      * it or overwrites its start in place, and marks the mirror clean.
      */
    method BindBuffer()
      requires Valid()
      modifies this, gl
      ensures Valid()
      ensures data == old(data)
      ensures data == [] ==>
        dirty == old(dirty) && bufLen == old(bufLen) && gpu == old(gpu) && uploads == old(uploads) &&
        gl.Snapshot() == old(gl.Snapshot()) && gl.calls == old(gl.calls)
      ensures data != [] ==>
        gl.Snapshot() == old(gl.Snapshot()).(arrayBuffer := buffer) &&
        gl.calls == old(gl.calls) + [BindArrayBuffer(buffer)]
      ensures data != [] && !old(dirty) ==>
        !dirty && bufLen == old(bufLen) && gpu == old(gpu) && uploads == old(uploads)
      ensures data != [] && old(dirty) && |data| > old(bufLen) ==>
        !dirty && bufLen == |data| && gpu == data && uploads == old(uploads) + [BufferData(|data|)]
      ensures data != [] && old(dirty) && |data| <= old(bufLen) ==>
        !dirty && bufLen == old(bufLen) && gpu == Overwrite(old(gpu), data) &&
        uploads == old(uploads) + [BufferSubData(0, |data|)]
      ensures data != [] ==> !dirty && Mirrored() && bufLen >= |data|
      ensures MirrorState() == AfterBind(old(MirrorState()), data)
    {
      if data == [] {
        return;
      }
      gl.BindArrayBufferTo(buffer);
      if dirty {
        if |data| > bufLen {
          UploadsInOrderExtend(uploads, BufferData(|data|));
          gpu := data;
          uploads := uploads + [BufferData(|data|)];
          bufLen := |data|;
        } else {
          UploadsInOrderExtend(uploads, BufferSubData(0, |data|));
          gpu := Overwrite(gpu, data);
          uploads := uploads + [BufferSubData(0, |data|)];
        }
        dirty := false;
      }
    }
  }

  /**
    * The driver's answer to `create_buffer`: the new buffer's name, or a
    * failure with the error code the driver raises for it.
    */
  datatype BufferOutcome = Created(id: ObjectId) | CreateFailed(code: nat)

  /**
    * `DynamicVertexArray::from_data`: generates the GPU buffer, whose creation
    * is a driver input; a failed creation raises its code and `to_gl_err`
    * reports the error then pending. The new array is dirty and has no GPU
    * storage.
    */
  method FromData<A>(gl: Context, layout: RecordLayout, data: seq<A>, created: BufferOutcome)
    returns (r: GlResult<DynamicVertexArray<A>>)
    modifies gl
    ensures r.Err? <==> created.CreateFailed?
    ensures r.Err? ==> r.error == GlError(Sticky(old(gl.error), created.code))
    ensures r.Err? ==> gl.Snapshot() == old(gl.Snapshot()).(error := NO_ERROR)
    ensures r.Err? ==> gl.calls == old(gl.calls) + [Call.GetError]
    ensures r.Ok? ==> fresh(r.value) && r.value.Valid()
    ensures r.Ok? ==> r.value.gl == gl && r.value.buffer == created.id && r.value.layout == layout
    ensures r.Ok? ==> r.value.data == data && r.value.dirty && r.value.bufLen == 0
    ensures r.Ok? ==> r.value.gpu == [] && r.value.uploads == []
    ensures r.Ok? ==> gl.Snapshot() == old(gl.Snapshot()) && gl.calls == old(gl.calls)
  {
    if created.CreateFailed? {
      gl.RaiseError(created.code);
      var e := ToGlErr(gl);
      return Err(e);
    }
    var a := new DynamicVertexArray.Init(gl, created.id, layout, data);
    return Ok(a);
  }

  /** `DynamicVertexArray::new`: `from_data` with no records. */
  method New<A>(gl: Context, layout: RecordLayout, created: BufferOutcome)
    returns (r: GlResult<DynamicVertexArray<A>>)
    modifies gl
    ensures r.Err? <==> created.CreateFailed?
    ensures r.Err? ==> r.error == GlError(Sticky(old(gl.error), created.code))
    ensures r.Err? ==> gl.Snapshot() == old(gl.Snapshot()).(error := NO_ERROR)
    ensures r.Err? ==> gl.calls == old(gl.calls) + [Call.GetError]
    ensures r.Ok? ==> fresh(r.value) && r.value.Valid()
    ensures r.Ok? ==> r.value.gl == gl && r.value.buffer == created.id && r.value.layout == layout
    ensures r.Ok? ==> r.value.data == [] && r.value.dirty && r.value.bufLen == 0
    ensures r.Ok? ==> r.value.gpu == [] && r.value.uploads == []
    ensures r.Ok? ==> gl.Snapshot() == old(gl.Snapshot()) && gl.calls == old(gl.calls)
  {
    r := FromData(gl, layout, [], created);
  }

  /**
    * Whatever mix of `set` and `index_mut` writes happened before, a
    * `bind_buffer` of a non-empty array leaves its records mirrored at the
    * start of a buffer large enough for them.
    */
  method WritesThenBind<A>(a: DynamicVertexArray<A>, replacement: Option<seq<A>>, writes: seq<(nat, A)>)
    requires a.Valid()
    modifies a, a.gl
    ensures a.Valid()
    ensures a.data != [] ==> !a.dirty && a.Mirrored() && a.bufLen >= |a.data|
    ensures a.bufLen >= old(a.bufLen)
  {
    if replacement.Some? {
      a.Set(replacement.value);
    }
    var i := 0;
    while i < |writes|
      invariant a.Valid() && a.bufLen == old(a.bufLen)
    {
      if writes[i].0 < |a.data| {
        a.IndexMut(writes[i].0, writes[i].1);
      }
      i := i + 1;
    }
    a.BindBuffer();
  }
}
