/**
  * Scoped state guards of the renderer (glr.rs). Each guard is an object that
  * does something to the driver when it is constructed and undoes it when it
  * is dropped; Rust's `Drop` is modelled as an explicit `Drop()` call. Nested
  * scopes are dropped innermost first; a list of attribute enablers is dropped
  * first to last, as a `SmallVec` drops its elements.
  */
module Guards {
  import opened Wrappers
  import opened Gl

  /** A renderbuffer wrapper, reduced to the context it belongs to and its name. */
  datatype Renderbuffer = Renderbuffer(gl: Context, id: ObjectId)

  /** A framebuffer wrapper, reduced to the context it belongs to and its name. */
  datatype Framebuffer = Framebuffer(gl: Context, id: ObjectId)

  /** `PushViewport`: remembers the viewport and puts it back on drop. */
  class PushViewport {
    const gl: Context
    const prev: Rect

    /** `PushViewport::new`: captures the current viewport, changes nothing. */
    constructor New(gl: Context)
      ensures this.gl == gl && prev == gl.viewport
    {
      this.gl := gl;
      prev := gl.viewport;
    }

    /** `PushViewport::push`: captures the viewport, then sets a new one. */
    constructor Push(gl: Context, x: i32, y: i32, width: i32, height: i32)
      modifies gl
      ensures this.gl == gl && prev == old(gl.viewport)
      ensures gl.Snapshot() == old(gl.Snapshot()).(viewport := Rect(x, y, width, height))
      ensures gl.calls == old(gl.calls) + [Call.Viewport(Rect(x, y, width, height))]
    {
      this.gl := gl;
      prev := gl.viewport;
      new;
      Viewport(x, y, width, height);
    }

    /** `viewport`: changes the viewport without touching what was captured. */
    method Viewport(x: i32, y: i32, width: i32, height: i32)
      modifies gl
      ensures gl.Snapshot() == old(gl.Snapshot()).(viewport := Rect(x, y, width, height))
      ensures gl.calls == old(gl.calls) + [Call.Viewport(Rect(x, y, width, height))]
    {
      gl.SetViewport(Rect(x, y, width, height));
    }

    /** Drop: reapplies the captured rectangle. */
    method Drop()
      modifies gl
      ensures gl.Snapshot() == old(gl.Snapshot()).(viewport := prev)
      ensures gl.calls == old(gl.calls) + [Call.Viewport(prev)]
    {
      gl.SetViewport(prev);
    }
  }

  /** `BinderRenderbuffer`: binds a renderbuffer; drop binds none. */
  class BinderRenderbuffer {
    const gl: Context

    /** `BinderRenderbuffer::bind`. */
    constructor Bind(rb: Renderbuffer)
      modifies rb.gl
      ensures gl == rb.gl
      ensures rb.gl.Snapshot() == old(rb.gl.Snapshot()).(renderbuffer := rb.id)
      ensures rb.gl.calls == old(rb.gl.calls) + [BindRenderbuffer(rb.id)]
    {
      rb.gl.BindRenderbufferTo(rb.id);
      gl := rb.gl;
    }

    /** `target()`. */
    function Target(): (t: nat)
      ensures t == RENDERBUFFER
    {
      RENDERBUFFER
    }

    /** `rebind`: binds another renderbuffer, through that renderbuffer's context. */
    method Rebind(rb: Renderbuffer)
      modifies rb.gl
      ensures rb.gl.Snapshot() == old(rb.gl.Snapshot()).(renderbuffer := rb.id)
      ensures rb.gl.calls == old(rb.gl.calls) + [BindRenderbuffer(rb.id)]
    {
      rb.gl.BindRenderbufferTo(rb.id);
    }

    /** Drop: unbinds (name 0), whatever was bound before `Bind`. */
    method Drop()
      modifies gl
      ensures gl.Snapshot() == old(gl.Snapshot()).(renderbuffer := 0)
      ensures gl.calls == old(gl.calls) + [BindRenderbuffer(0)]
    {
      gl.BindRenderbufferTo(0);
    }
  }

  /**
    * `NonZeroU32::new(id).map(NativeFramebuffer)`: a binding read back from the
    * driver as an optional framebuffer, where 0 (the default framebuffer) is None.
    */
  function CapturedFramebuffer(binding: nat): (r: Option<ObjectId>)
    ensures r.None? <==> binding == 0
    ensures r.Some? ==> r.value == binding
  {
    if binding == 0 then None else Some(binding)
  }

  /** The name an optional framebuffer is bound as: None binds the default, 0. */
  function BoundName(fb: Option<ObjectId>): (n: nat)
    ensures fb.None? <==> n == 0
    ensures fb.Some? ==> n == fb.value
  {
    match fb
    case None => 0
    case Some(id) => id
  }

  /** Capturing a binding and binding it again gives back the same name. */
  lemma CaptureRoundTrip(binding: nat)
    ensures BoundName(CapturedFramebuffer(binding)) == binding
  {
  }

  /**
    * `BinderFramebuffer<TGT>` for TGT = BinderFBODraw / BinderFBORead: drop binds
    * `id` on `target`, so a binder made by `New` restores what it captured and
    * one made by `Bind` restores the default framebuffer.
    */
  class BinderFramebuffer {
    const gl: Context
    const target: FramebufferTarget
    const id: Option<ObjectId>

    /** `BinderFramebuffer::new`: captures the current binding, changes nothing. */
    constructor New(gl: Context, target: FramebufferTarget)
      ensures this.gl == gl && this.target == target
      ensures id == CapturedFramebuffer(gl.FramebufferBinding(target))
      ensures BoundName(id) == gl.FramebufferBinding(target)
    {
      this.gl := gl;
      this.target := target;
      id := CapturedFramebuffer(gl.FramebufferBinding(target));
      CaptureRoundTrip(gl.FramebufferBinding(target));
    }

    /** `BinderFramebuffer::bind`: binds `fb` and remembers nothing. */
    constructor Bind(fb: Framebuffer, target: FramebufferTarget)
      modifies fb.gl
      ensures gl == fb.gl && this.target == target && id == None
      ensures target.DrawTarget? ==> fb.gl.Snapshot() == old(fb.gl.Snapshot()).(drawFramebuffer := fb.id)
      ensures target.ReadTarget? ==> fb.gl.Snapshot() == old(fb.gl.Snapshot()).(readFramebuffer := fb.id)
      ensures fb.gl.calls == old(fb.gl.calls) + [BindFramebuffer(target, fb.id)]
    {
      fb.gl.BindFramebufferTo(target, fb.id);
      gl := fb.gl;
      this.target := target;
      id := None;
    }

    /** `target()`: the enumerant of the binder's target. */
    function Target(): (t: nat)
      ensures target.DrawTarget? ==> t == DRAW_FRAMEBUFFER
      ensures target.ReadTarget? ==> t == READ_FRAMEBUFFER
    {
      target.Enum()
    }

    /** `rebind`: binds another framebuffer, through that framebuffer's context. */
    method Rebind(fb: Framebuffer)
      modifies fb.gl
      ensures target.DrawTarget? ==> fb.gl.Snapshot() == old(fb.gl.Snapshot()).(drawFramebuffer := fb.id)
      ensures target.ReadTarget? ==> fb.gl.Snapshot() == old(fb.gl.Snapshot()).(readFramebuffer := fb.id)
      ensures fb.gl.calls == old(fb.gl.calls) + [BindFramebuffer(target, fb.id)]
    {
      fb.gl.BindFramebufferTo(target, fb.id);
    }

    /** Drop: binds the remembered framebuffer, the default one when there is none. */
    method Drop()
      modifies gl
      ensures gl.FramebufferBinding(target) == BoundName(id)
      ensures target.DrawTarget? ==> gl.Snapshot() == old(gl.Snapshot()).(drawFramebuffer := BoundName(id))
      ensures target.ReadTarget? ==> gl.Snapshot() == old(gl.Snapshot()).(readFramebuffer := BoundName(id))
      ensures gl.calls == old(gl.calls) + [BindFramebuffer(target, BoundName(id))]
    {
      gl.BindFramebufferTo(target, BoundName(id));
    }
  }

  /** `EnablerVertexAttribArray`: enables one attribute slot; drop disables that slot. */
  class EnablerVertexAttribArray {
    const gl: Context
    const id: nat

    /** `EnablerVertexAttribArray::enable`. */
    constructor Enable(gl: Context, id: nat)
      modifies gl
      ensures this.gl == gl && this.id == id
      ensures gl.Snapshot() == old(gl.Snapshot()).(enabledAttribs := old(gl.enabledAttribs) + {id})
      ensures gl.calls == old(gl.calls) + [EnableVertexAttribArray(id)]
    {
      gl.EnableAttrib(id);
      this.gl := gl;
      this.id := id;
    }

    /** Drop: disables exactly the slot this guard enabled. */
    method Drop()
      modifies gl
      ensures gl.Snapshot() == old(gl.Snapshot()).(enabledAttribs := old(gl.enabledAttribs) - {id})
      ensures gl.calls == old(gl.calls) + [DisableVertexAttribArray(id)]
    {
      gl.DisableAttrib(id);
    }
  }

  /** The slots held by a list of enablers, in list order. */
  function Slots(guards: seq<EnablerVertexAttribArray>): (s: seq<nat>)
    ensures |s| == |guards|
  {
    if guards == [] then [] else Slots(guards[..|guards| - 1]) + [guards[|guards| - 1].id]
  }

  /** Slot `i` of the list is the slot of guard `i`. */
  lemma {:induction false} SlotsAt(guards: seq<EnablerVertexAttribArray>, i: nat)
    requires i < |guards|
    ensures Slots(guards)[i] == guards[i].id
  {
    if i < |guards| - 1 {
      SlotsAt(guards[..|guards| - 1], i);
    }
  }

  lemma {:induction false} SlotsAppend(a: seq<EnablerVertexAttribArray>, b: seq<EnablerVertexAttribArray>)
    ensures Slots(a + b) == Slots(a) + Slots(b)
  {
    if b != [] {
      SlotsAppend(a, b[..|b| - 1]);
      assert (a + b)[..|a + b| - 1] == a + b[..|b| - 1];
    } else {
      assert a + b == a;
    }
  }

  /** The set of entries of `s`. */
  function Elems(s: seq<nat>): set<nat>
  {
    set x | x in s
  }

  lemma ElemsAppend(s: seq<nat>, t: seq<nat>)
    ensures Elems(s + t) == Elems(s) + Elems(t)
  {
    forall x | x in Elems(s + t) ensures x in Elems(s) + Elems(t) {
      var i :| 0 <= i < |s + t| && (s + t)[i] == x;
      if i < |s| { assert s[i] == x; } else { assert t[i - |s|] == x; }
    }
  }

  /** The commands that disable `slots`, one per slot, in order. */
  function DisableCalls(slots: seq<nat>): (calls: seq<Call>)
    ensures |calls| == |slots|
  {
    if slots == [] then [] else DisableCalls(slots[..|slots| - 1]) + [DisableVertexAttribArray(slots[|slots| - 1])]
  }

  /** Command `i` disables slot `i`. */
  lemma {:induction false} DisableCallsAt(slots: seq<nat>, i: nat)
    requires i < |slots|
    ensures DisableCalls(slots)[i] == DisableVertexAttribArray(slots[i])
  {
    if i < |slots| - 1 {
      DisableCallsAt(slots[..|slots| - 1], i);
    }
  }

  lemma DisableCallsExtend(slots: seq<nat>, n: nat)
    ensures DisableCalls(slots + [n]) == DisableCalls(slots) + [DisableVertexAttribArray(n)]
  {
    assert (slots + [n])[..|slots|] == slots;
  }

  lemma RemoveStep(a: set<nat>, e: set<nat>, x: nat)
    ensures a - e - {x} == a - (e + {x})
  {
  }

  /** The commands that enable `slots`, one per slot, in order. */
  function EnableCalls(slots: seq<nat>): (calls: seq<Call>)
    ensures |calls| == |slots|
  {
    if slots == [] then [] else EnableCalls(slots[..|slots| - 1]) + [EnableVertexAttribArray(slots[|slots| - 1])]
  }

  /** How many entries of `calls` are `c`. */
  function Occurrences(calls: seq<Call>, c: Call): nat
  {
    if calls == [] then 0
    else Occurrences(calls[..|calls| - 1], c) + (if calls[|calls| - 1] == c then 1 else 0)
  }

  /** How many entries of `slots` are `s`. */
  function SlotCount(slots: seq<nat>, s: nat): nat
  {
    if slots == [] then 0
    else SlotCount(slots[..|slots| - 1], s) + (if slots[|slots| - 1] == s then 1 else 0)
  }

  lemma {:induction false} OccurrencesAppend(s: seq<Call>, t: seq<Call>, c: Call)
    ensures Occurrences(s + t, c) == Occurrences(s, c) + Occurrences(t, c)
  {
    if t != [] {
      OccurrencesAppend(s, t[..|t| - 1], c);
      assert (s + t)[..|s + t| - 1] == s + t[..|t| - 1];
    } else {
      assert s + t == s;
    }
  }

  lemma OccurrencesOne(x: Call, c: Call)
    ensures Occurrences([x], c) == if x == c then 1 else 0
  {
    assert [x][..0] == [];
  }

  lemma OccurrencesTwo(x: Call, y: Call, c: Call)
    ensures Occurrences([x, y], c) == (if x == c then 1 else 0) + (if y == c then 1 else 0)
  {
    assert [x, y][..1] == [x];
    OccurrencesOne(x, c);
  }

  lemma {:induction false} SlotCountAppend(s: seq<nat>, t: seq<nat>, x: nat)
    ensures SlotCount(s + t, x) == SlotCount(s, x) + SlotCount(t, x)
  {
    if t != [] {
      SlotCountAppend(s, t[..|t| - 1], x);
      assert (s + t)[..|s + t| - 1] == s + t[..|t| - 1];
    } else {
      assert s + t == s;
    }
  }

  /**
    * A list of guards disables every slot exactly as often as it enabled it:
    * in the command stream the disables of a slot are as many as the enables.
    */
  lemma {:induction false} EachSlotDisabledOncePerEnable(slots: seq<nat>, s: nat)
    ensures Occurrences(DisableCalls(slots), DisableVertexAttribArray(s)) == SlotCount(slots, s)
    ensures Occurrences(EnableCalls(slots), EnableVertexAttribArray(s)) == SlotCount(slots, s)
    ensures Occurrences(DisableCalls(slots), EnableVertexAttribArray(s)) == 0
  {
    if slots != [] {
      var init := slots[..|slots| - 1];
      EachSlotDisabledOncePerEnable(init, s);
      assert DisableCalls(slots)[..|slots| - 1] == DisableCalls(init);
      assert EnableCalls(slots)[..|slots| - 1] == EnableCalls(init);
    }
  }

  /**
    * Dropping a list of enablers (a `SmallVec` drops its elements first to
    * last): each disables its own slot.
    */
  method DropAll(guards: seq<EnablerVertexAttribArray>, gl: Context)
    requires forall k :: 0 <= k < |guards| ==> guards[k].gl == gl
    modifies gl
    ensures gl.Snapshot() == old(gl.Snapshot()).(enabledAttribs := old(gl.enabledAttribs) - Elems(Slots(guards)))
    ensures gl.calls == old(gl.calls) + DisableCalls(Slots(guards))
  {
    var i := 0;
    while i < |guards|
      invariant 0 <= i <= |guards|
      invariant gl.enabledAttribs == old(gl.enabledAttribs) - Elems(Slots(guards[..i]))
      invariant gl.Snapshot() == old(gl.Snapshot()).(enabledAttribs := gl.enabledAttribs)
      invariant gl.calls == old(gl.calls) + DisableCalls(Slots(guards[..i]))
    {
      ghost var c := gl.calls;
      guards[i].Drop();
      assert guards[..i + 1][..i] == guards[..i];
      assert Slots(guards[..i + 1]) == Slots(guards[..i]) + [guards[i].id];
      ElemsAppend(Slots(guards[..i]), [guards[i].id]);
      assert Elems([guards[i].id]) == {guards[i].id};
      RemoveStep(old(gl.enabledAttribs), Elems(Slots(guards[..i])), guards[i].id);
      DisableCallsExtend(Slots(guards[..i]), guards[i].id);
      assert gl.calls == c + [DisableVertexAttribArray(guards[i].id)];
      AppendAssoc(old(gl.calls), DisableCalls(Slots(guards[..i])), [DisableVertexAttribArray(guards[i].id)]);
      i := i + 1;
    }
    assert guards[..i] == guards;
  }

  /**
    * Guards used in strict LIFO order put the state back: an outer framebuffer
    * binder and an inner viewport guard around any number of viewport and
    * framebuffer changes leave viewport and draw framebuffer as they were.
    */
  method NestedScopesRestore(gl: Context, viewports: seq<Rect>, framebuffers: seq<Framebuffer>)
    requires forall i :: 0 <= i < |framebuffers| ==> framebuffers[i].gl == gl
    modifies gl
    ensures gl.viewport == old(gl.viewport)
    ensures gl.drawFramebuffer == old(gl.drawFramebuffer)
    ensures gl.Snapshot() == old(gl.Snapshot())
  {
    var outer := new BinderFramebuffer.New(gl, DrawTarget);
    var inner := new PushViewport.New(gl);
    var i := 0;
    while i < |viewports|
      invariant 0 <= i <= |viewports|
      invariant gl.Snapshot() == old(gl.Snapshot()).(viewport := gl.viewport)
    {
      var r := viewports[i];
      inner.Viewport(r.x, r.y, r.width, r.height);
      i := i + 1;
    }
    var j := 0;
    while j < |framebuffers|
      invariant 0 <= j <= |framebuffers|
      invariant gl.Snapshot() == old(gl.Snapshot()).(viewport := gl.viewport, drawFramebuffer := gl.drawFramebuffer)
    {
      outer.Rebind(framebuffers[j]);
      j := j + 1;
    }
    inner.Drop();
    outer.Drop();
  }
}
