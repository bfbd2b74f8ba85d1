/**
  * Attribute provider lists and `Program::draw` (glr.rs): a whole dynamic
  * vertex array, a sub-range view of one, a pair of lists or a bare vertex
  * count; how long each is, what binding each issues, and the draw that
  * ties program, uniforms and attributes together.
  */
module Draw {
  import opened Wrappers
  import opened Gl
  import opened Attributes
  import opened Programs
  import opened Uniforms
  import opened Guards
  import opened VertexArray

  /**
    * The `AttribProviderList` implementations: `&DynamicVertexArray`,
    * `DynamicVertexArraySub` (the range `start..end`), the pair `(A0, A1)`
    * and `NilVertexAttrib`.
    */
  datatype AttribList<A> =
    | Whole(vertices: DynamicVertexArray<A>)
    | Sub(vertices: DynamicVertexArray<A>, start: nat, end: nat)
    | Pair(first: AttribList<A>, second: AttribList<A>)
    | Nil(count: nat)

  /** The vertex arrays a list refers to. */
  function Arrays<A>(l: AttribList<A>): set<DynamicVertexArray<A>>
  {
    match l
    case Whole(a) => {a}
    case Sub(a, _, _) => {a}
    case Pair(x, y) => Arrays(x) + Arrays(y)
    case Nil(_) => {}
  }

  /** Every array of `arrays` is well formed and shares the program's context. */
  ghost predicate AllValid<A>(arrays: set<DynamicVertexArray<A>>, gl: Context)
    reads arrays
  {
    forall a :: a in arrays ==> a.Valid() && a.gl == gl
  }

  /** Every array of the list is well formed and shares the program's context. */
  ghost predicate ListValid<A>(l: AttribList<A>, gl: Context)
    reads Arrays(l)
  {
    AllValid(Arrays(l), gl)
  }

  /**
    * Once the list is bound (every array is dirty exactly when it has no
    * records), each array with records is mirrored by the start of its GPU
    * buffer, which holds at least as many records.
    */
  lemma BoundListMirrored<A>(l: AttribList<A>, gl: Context)
    requires ListValid(l, gl)
    requires forall a :: a in Arrays(l) ==> (a.dirty <==> a.data == [])
    ensures forall a :: a in Arrays(l) && a.data != [] ==> !a.dirty && a.Mirrored() && a.bufLen >= |a.data|
  {
    forall a | a in Arrays(l) && a.data != []
      ensures !a.dirty && a.Mirrored() && a.bufLen >= |a.data|
    {
      assert a.Valid();
    }
  }

  /** `AttribProviderList::len`: the number of vertices the list provides. */
  function Len<A>(l: AttribList<A>): (n: nat)
    reads Arrays(l)`data
    ensures l.Whole? ==> n == |l.vertices.data|
    ensures l.Sub? ==> (l.start <= l.end ==> l.start + n == l.end) && (l.end < l.start ==> n == 0)
    ensures l.Nil? ==> n == l.count
  {
    match l
    case Whole(a) => |a.data|
    case Sub(_, s, e) => if s <= e then e - s else 0
    case Pair(x, y) => if Len(x) <= Len(y) then Len(x) else Len(y)
    case Nil(n) => n
  }

  /** A pair provides as many vertices as the shorter of its two components. */
  lemma PairLen<A>(x: AttribList<A>, y: AttribList<A>)
    ensures Len(Pair(x, y)) <= Len(x) && Len(Pair(x, y)) <= Len(y)
    ensures Len(Pair(x, y)) == Len(x) || Len(Pair(x, y)) == Len(y)
  {
  }

  /** The driver commands one catalog attribute gives: enable its slot, then point it into the buffer. */
  function AttribCalls(layout: RecordLayout, a: CatalogEntry, start: nat): seq<Call>
  {
    match MatchAttrib(layout.fields, a.name)
    case None => []
    case Some(ptr) =>
      [EnableVertexAttribArray(a.location),
       VertexAttribPointer(a.location, AsI32(ptr.components), ptr.glType, false,
                           AsI32(layout.size), AsI32(ptr.offset + layout.size * start))]
  }

  /** The attribute loop of `bind`, for a view whose first vertex is record `start`. */
  function PointerCalls(layout: RecordLayout, attribs: seq<CatalogEntry>, start: nat): seq<Call>
  {
    if attribs == [] then []
    else PointerCalls(layout, attribs[..|attribs| - 1], start) + AttribCalls(layout, attribs[|attribs| - 1], start)
  }

  /** The slots the attribute loop enables, in catalog order. */
  function BindSlots(layout: RecordLayout, attribs: seq<CatalogEntry>): seq<nat>
  {
    if attribs == [] then []
    else
      var a := attribs[|attribs| - 1];
      BindSlots(layout, attribs[..|attribs| - 1]) + if MatchAttrib(layout.fields, a.name).Some? then [a.location] else []
  }

  /** The driver commands `bind_buffer` issues for an array: none when it is empty. */
  function BufferCalls<A>(a: DynamicVertexArray<A>): seq<Call>
    reads a`data
  {
    if a.data == [] then [] else [BindArrayBuffer(a.buffer)]
  }

  /** The driver commands `bind` issues for a list, first component first. */
  function BindCalls<A>(l: AttribList<A>, attribs: seq<CatalogEntry>): seq<Call>
    reads Arrays(l)`data
  {
    match l
    case Whole(a) => BufferCalls(a) + PointerCalls(a.layout, attribs, 0)
    case Sub(a, s, _) => BufferCalls(a) + PointerCalls(a.layout, attribs, s)
    case Pair(x, y) => BindCalls(x, attribs) + BindCalls(y, attribs)
    case Nil(_) => []
  }

  /** The slots `bind` enables for a list, in the order its guards are kept. */
  function ListSlots<A>(l: AttribList<A>, attribs: seq<CatalogEntry>): seq<nat>
  {
    match l
    case Whole(a) => BindSlots(a.layout, attribs)
    case Sub(a, _, _) => BindSlots(a.layout, attribs)
    case Pair(x, y) => ListSlots(x, attribs) + ListSlots(y, attribs)
    case Nil(_) => []
  }

  /** The array buffer bound after `bind`, starting from `prev`. */
  function BufferAfter<A>(l: AttribList<A>, prev: nat): nat
    reads Arrays(l)`data
  {
    match l
    case Whole(a) => if a.data == [] then prev else a.buffer
    case Sub(a, _, _) => if a.data == [] then prev else a.buffer
    case Pair(x, y) => BufferAfter(y, BufferAfter(x, prev))
    case Nil(_) => prev
  }

  /** The command `c` with its buffer offset moved `delta` bytes further, as a 32-bit value. */
  function Shift(c: Call, delta: nat): Call
  {
    if c.VertexAttribPointer? then c.(offset := WrapAdd(c.offset, delta)) else c
  }

  /** Every command of `calls` shifted by `delta`. */
  function ShiftAll(calls: seq<Call>, delta: nat): seq<Call>
  {
    if calls == [] then [] else ShiftAll(calls[..|calls| - 1], delta) + [Shift(calls[|calls| - 1], delta)]
  }

  lemma {:induction false} ShiftAllAppend(s: seq<Call>, t: seq<Call>, delta: nat)
    ensures ShiftAll(s + t, delta) == ShiftAll(s, delta) + ShiftAll(t, delta)
  {
    if t != [] {
      ShiftAllAppend(s, t[..|t| - 1], delta);
      assert (s + t)[..|s + t| - 1] == s + t[..|t| - 1];
    } else {
      assert s + t == s;
    }
  }

  /**
    * A sub-range view starting at record `start` issues the same attribute
    * commands as the whole array, with every offset moved by `start` records.
    */
  lemma {:induction false} SubViewShiftsOffsets(layout: RecordLayout, attribs: seq<CatalogEntry>, start: nat)
    ensures PointerCalls(layout, attribs, start) == ShiftAll(PointerCalls(layout, attribs, 0), layout.size * start)
  {
    if attribs != [] {
      var init := attribs[..|attribs| - 1];
      var a := attribs[|attribs| - 1];
      SubViewShiftsOffsets(layout, init, start);
      AttribCallsShifted(layout, a, start);
      ShiftAllAppend(PointerCalls(layout, init, 0), AttribCalls(layout, a, 0), layout.size * start);
    }
  }

  /** One attribute's commands, for a view starting at record `start` and for the whole array. */
  lemma AttribCallsShifted(layout: RecordLayout, a: CatalogEntry, start: nat)
    ensures AttribCalls(layout, a, start) == ShiftAll(AttribCalls(layout, a, 0), layout.size * start)
  {
    var m := MatchAttrib(layout.fields, a.name);
    if m.Some? {
      var p := m.value;
      assert p.offset + layout.size * 0 == p.offset;
      ShiftPair(a.location, AsI32(p.components), p.glType, AsI32(layout.size), p.offset, layout.size * start);
    } else {
      assert AttribCalls(layout, a, 0) == [];
    }
  }

  lemma ShiftPair(loc: nat, size: i32, glType: nat, stride: i32, offset: nat, delta: nat)
    ensures ShiftAll([EnableVertexAttribArray(loc), VertexAttribPointer(loc, size, glType, false, stride, AsI32(offset))], delta)
      == [EnableVertexAttribArray(loc), VertexAttribPointer(loc, size, glType, false, stride, AsI32(offset + delta))]
  {
    var e := EnableVertexAttribArray(loc);
    var w := VertexAttribPointer(loc, size, glType, false, stride, AsI32(offset));
    assert [e, w][..1] == [e];
    assert [e][..0] == [];
    assert ShiftAll([e], delta) == [e];
    AsI32Add(offset, delta);
  }

  lemma BindStep(layout: RecordLayout, attribs: seq<CatalogEntry>, i: nat, start: nat)
    requires i < |attribs|
    ensures PointerCalls(layout, attribs[..i + 1], start) ==
      PointerCalls(layout, attribs[..i], start) + AttribCalls(layout, attribs[i], start)
    ensures BindSlots(layout, attribs[..i + 1]) == BindSlots(layout, attribs[..i]) +
      if MatchAttrib(layout.fields, attribs[i].name).Some? then [attribs[i].location] else []
  {
    assert attribs[..i + 1][..i] == attribs[..i];
  }

  /**
    * One iteration of the attribute loop of `bind`: when the record type
    * declares the attribute, enable its slot (keeping the guard) and point it
    * at the field, `start` records into the buffer.
    */
  method BindAttribute(layout: RecordLayout, attr: CatalogEntry, start: nat, gl: Context)
    returns (g: Option<EnablerVertexAttribArray>)
    modifies gl
    ensures g.Some? <==> MatchAttrib(layout.fields, attr.name).Some?
    ensures g.Some? ==> g.value.gl == gl && g.value.id == attr.location
    ensures gl.Snapshot() == old(gl.Snapshot()).(enabledAttribs := old(gl.enabledAttribs) +
      if g.Some? then {attr.location} else {})
    ensures gl.calls == old(gl.calls) + AttribCalls(layout, attr, start)
  {
    var m := MatchAttrib(layout.fields, attr.name);
    if m.None? {
      return None;
    }
    var e := new EnablerVertexAttribArray.Enable(gl, attr.location);
    var offset := m.value.offset + layout.size * start;
    gl.AttribPointer(attr.location, AsI32(m.value.components), m.value.glType, false, AsI32(layout.size), AsI32(offset));
    return Some(e);
  }

  /**
    * `bind` of a whole array (`start` = 0) or of a sub-range view: uploads the
    * array if needed, then enables and points every catalog attribute the
    * record type declares, keeping one guard per enabled slot.
    */
  method BindArray<A>(a: DynamicVertexArray<A>, start: nat, p: Program, ghost arrays: set<DynamicVertexArray<A>>)
    returns (keep: seq<EnablerVertexAttribArray>)
    requires a in arrays && AllValid(arrays, p.gl)
    requires forall b :: b in arrays ==> allocated(b)
    modifies a, p.gl
    ensures AllValid(arrays, p.gl) && unchanged(arrays`data)
    ensures a.data != [] ==> !a.dirty && a.Mirrored() && a.bufLen >= |a.data|
    ensures a.MirrorState() == old(AfterBind(a.MirrorState(), a.data))
    ensures Slots(keep) == BindSlots(a.layout, p.attribs)
    ensures forall k :: 0 <= k < |keep| ==> keep[k].gl == p.gl
    ensures p.gl.Snapshot() == old(p.gl.Snapshot()).(
      arrayBuffer := if a.data == [] then old(p.gl.arrayBuffer) else a.buffer,
      enabledAttribs := old(p.gl.enabledAttribs) + Elems(BindSlots(a.layout, p.attribs)))
    ensures p.gl.calls == old(p.gl.calls) + BufferCalls(a) + PointerCalls(a.layout, p.attribs, start)
  {
    a.BindBuffer();
    keep := BindAttributes(a.layout, p.attribs, start, p.gl);
  }

  /** The attribute loop of `bind`, over the program's attribute catalog in catalog order. */
  method BindAttributes(layout: RecordLayout, attribs: seq<CatalogEntry>, start: nat, gl: Context)
    returns (keep: seq<EnablerVertexAttribArray>)
    modifies gl
    ensures Slots(keep) == BindSlots(layout, attribs)
    ensures forall k :: 0 <= k < |keep| ==> keep[k].gl == gl
    ensures gl.Snapshot() == old(gl.Snapshot()).(enabledAttribs := old(gl.enabledAttribs) + Elems(BindSlots(layout, attribs)))
    ensures gl.calls == old(gl.calls) + PointerCalls(layout, attribs, start)
  {
    keep := [];
    var i := 0;
    while i < |attribs|
      invariant 0 <= i <= |attribs|
      invariant Slots(keep) == BindSlots(layout, attribs[..i])
      invariant forall k :: 0 <= k < |keep| ==> keep[k].gl == gl
      invariant gl.Snapshot() == old(gl.Snapshot()).(enabledAttribs := old(gl.enabledAttribs) + Elems(BindSlots(layout, attribs[..i])))
      invariant gl.calls == old(gl.calls) + PointerCalls(layout, attribs[..i], start)
    {
      BindStep(layout, attribs, i, start);
      var g := BindAttribute(layout, attribs[i], start, gl);
      assert gl.calls == old(gl.calls) + PointerCalls(layout, attribs[..i + 1], start) by {
        AppendAssoc(old(gl.calls), PointerCalls(layout, attribs[..i], start), AttribCalls(layout, attribs[i], start));
      }
      ElemsAppend(BindSlots(layout, attribs[..i]), if g.Some? then [attribs[i].location] else []);
      if g.Some? {
        keep := keep + [g.value];
      }
      i := i + 1;
    }
    assert attribs[..i] == attribs;
  }

  /** `AttribProviderList::bind`: binds the components in order and keeps all their guards. */
  method Bind<A>(l: AttribList<A>, p: Program, ghost arrays: set<DynamicVertexArray<A>>)
    returns (keep: seq<EnablerVertexAttribArray>)
    requires Arrays(l) <= arrays && AllValid(arrays, p.gl)
    requires forall a :: a in arrays ==> allocated(a)
    modifies Arrays(l), p.gl
    decreases l, 1
    ensures AllValid(arrays, p.gl) && unchanged(arrays`data)
    ensures forall a :: a in Arrays(l) ==> a.MirrorState() == old(AfterBind(a.MirrorState(), a.data))
    ensures Slots(keep) == ListSlots(l, p.attribs)
    ensures forall k :: 0 <= k < |keep| ==> keep[k].gl == p.gl
    ensures p.gl.Snapshot() == old(p.gl.Snapshot()).(
      arrayBuffer := old(BufferAfter(l, p.gl.arrayBuffer)),
      enabledAttribs := old(p.gl.enabledAttribs) + Elems(ListSlots(l, p.attribs)))
    ensures p.gl.calls == old(p.gl.calls) + old(BindCalls(l, p.attribs))
  {
    match l
    case Whole(a) =>
      keep := BindView(l, p, arrays);
      assert Arrays(l) == {a};
    case Sub(a, _, _) =>
      keep := BindView(l, p, arrays);
      assert Arrays(l) == {a};
    case Pair(x, y) =>
      keep := BindPair(x, y, p, arrays);
    case Nil(_) =>
      keep := [];
  }

  /** `bind` of a whole array or of a sub-range view of one. */
  method BindView<A>(l: AttribList<A>, p: Program, ghost arrays: set<DynamicVertexArray<A>>)
    returns (keep: seq<EnablerVertexAttribArray>)
    requires l.Whole? || l.Sub?
    requires Arrays(l) <= arrays && AllValid(arrays, p.gl)
    requires forall a :: a in arrays ==> allocated(a)
    modifies Arrays(l), p.gl
    ensures AllValid(arrays, p.gl) && unchanged(arrays`data)
    ensures l.vertices.MirrorState() == old(AfterBind(l.vertices.MirrorState(), l.vertices.data))
    ensures Slots(keep) == ListSlots(l, p.attribs)
    ensures forall k :: 0 <= k < |keep| ==> keep[k].gl == p.gl
    ensures p.gl.Snapshot() == old(p.gl.Snapshot()).(
      arrayBuffer := old(BufferAfter(l, p.gl.arrayBuffer)),
      enabledAttribs := old(p.gl.enabledAttribs) + Elems(ListSlots(l, p.attribs)))
    ensures p.gl.calls == old(p.gl.calls) + old(BindCalls(l, p.attribs))
  {
    var start := if l.Sub? then l.start else 0;
    keep := BindArray(l.vertices, start, p, arrays);
  }

  /** `bind` of the pair `(A0, A1)`: binds the first component, then the second. */
  method BindPair<A>(x: AttribList<A>, y: AttribList<A>, p: Program, ghost arrays: set<DynamicVertexArray<A>>)
    returns (keep: seq<EnablerVertexAttribArray>)
    requires Arrays(Pair(x, y)) <= arrays && AllValid(arrays, p.gl)
    requires forall a :: a in arrays ==> allocated(a)
    modifies Arrays(Pair(x, y)), p.gl
    decreases Pair(x, y), 0
    ensures AllValid(arrays, p.gl) && unchanged(arrays`data)
    ensures forall a :: a in Arrays(Pair(x, y)) ==> a.MirrorState() == old(AfterBind(a.MirrorState(), a.data))
    ensures Slots(keep) == ListSlots(Pair(x, y), p.attribs)
    ensures forall k :: 0 <= k < |keep| ==> keep[k].gl == p.gl
    ensures p.gl.Snapshot() == old(p.gl.Snapshot()).(
      arrayBuffer := old(BufferAfter(Pair(x, y), p.gl.arrayBuffer)),
      enabledAttribs := old(p.gl.enabledAttribs) + Elems(ListSlots(Pair(x, y), p.attribs)))
    ensures p.gl.calls == old(p.gl.calls) + old(BindCalls(Pair(x, y), p.attribs))
  {
    ghost var c0, cx, cy := p.gl.calls, BindCalls(x, p.attribs), BindCalls(y, p.attribs);
    assert BindCalls(Pair(x, y), p.attribs) == cx + cy;
    ghost var b0 := BufferAfter(x, p.gl.arrayBuffer);
    var k0 := Bind(x, p, arrays);
    assert p.gl.calls == c0 + cx;
    assert BindCalls(y, p.attribs) == cy && BufferAfter(y, b0) == old(BufferAfter(Pair(x, y), p.gl.arrayBuffer));
    var k1 := Bind(y, p, arrays);
    assert p.gl.calls == c0 + cx + cy;
    forall a | a in Arrays(Pair(x, y))
      ensures a.MirrorState() == old(AfterBind(a.MirrorState(), a.data))
    {
      if a in Arrays(x) && a in Arrays(y) {
        AfterBindIdempotent(old(a.MirrorState()), a.data);
      }
    }
    AppendAssoc(c0, cx, cy);
    keep := k0 + k1;
    SlotsAppend(k0, k1);
    ElemsAppend(ListSlots(x, p.attribs), ListSlots(y, p.attribs));
  }

  /** The driver commands the uniform loop issues for `catalog`, in catalog order. */
  function UniformsCalls(fields: seq<UniformFieldDecl>, catalog: seq<CatalogEntry>): seq<Call>
  {
    if catalog == [] then []
    else
      var u := catalog[|catalog| - 1];
      UniformsCalls(fields, catalog[..|catalog| - 1]) + UniformCalls(UniformEffectOf(fields, u), u)
  }

  lemma UniformsCallsStep(fields: seq<UniformFieldDecl>, catalog: seq<CatalogEntry>, i: nat)
    requires i < |catalog|
    ensures UniformsCalls(fields, catalog[..i + 1]) ==
      UniformsCalls(fields, catalog[..i]) + UniformCalls(UniformEffectOf(fields, catalog[i]), catalog[i])
  {
    assert catalog[..i + 1][..i] == catalog[..i];
  }

  /** How many catalog uniforms the struct applies before reaching an unimplemented array field. */
  function ImplementedPrefix(fields: seq<UniformFieldDecl>, catalog: seq<CatalogEntry>): (k: nat)
    ensures k <= |catalog|
  {
    if catalog == [] then 0
    else if UniformEffectOf(fields, catalog[0]).Unimplemented? then 0
    else 1 + ImplementedPrefix(fields, catalog[1..])
  }

  /**
    * The prefix is maximal: every uniform before it is applied without
    * panicking, and the uniform right after it is the unimplemented one.
    */
  lemma {:induction false} ImplementedPrefixStops(fields: seq<UniformFieldDecl>, catalog: seq<CatalogEntry>)
    ensures var k := ImplementedPrefix(fields, catalog);
      (forall i :: 0 <= i < k ==> !UniformEffectOf(fields, catalog[i]).Unimplemented?) &&
      (k < |catalog| ==> UniformEffectOf(fields, catalog[k]).Unimplemented?)
  {
    if catalog != [] && !UniformEffectOf(fields, catalog[0]).Unimplemented? {
      ImplementedPrefixStops(fields, catalog[1..]);
      assert forall i :: 1 <= i < |catalog| ==> catalog[i] == catalog[1..][i - 1];
    }
  }

  /**
    * The uniform loop of `draw`: the struct's `apply` once per catalog uniform
    * in catalog order; stops at the first unimplemented (panicking) one.
    */
  method ApplyUniforms(fields: seq<UniformFieldDecl>, catalog: seq<CatalogEntry>, gl: Context) returns (k: nat)
    modifies gl
    ensures k == ImplementedPrefix(fields, catalog)
    ensures gl.Snapshot() == old(gl.Snapshot())
    ensures gl.calls == old(gl.calls) + UniformsCalls(fields, catalog[..k])
  {
    ImplementedPrefixStops(fields, catalog);
    var i := 0;
    while i < |catalog|
      invariant 0 <= i <= |catalog|
      invariant i <= ImplementedPrefix(fields, catalog)
      invariant gl.Snapshot() == old(gl.Snapshot())
      invariant gl.calls == old(gl.calls) + UniformsCalls(fields, catalog[..i])
    {
      UniformsCallsStep(fields, catalog, i);
      var ok := ApplyUniform(fields, catalog[i], gl);
      if !ok {
        return i;
      }
      i := i + 1;
    }
    assert catalog[..i] == catalog;
    return |catalog|;
  }

  /** What `draw` ends with: nothing drawn, a draw and the `check_gl` result, or the `todo!()` panic. */
  datatype DrawOutcome = NothingToDraw | Drawn(check: Result<(), GlError>) | Panicked

  /** The commands of a `draw` after the uniforms: bind, draw `len` vertices, check, drop the guards. */
  function DrawTail<A>(attribs: seq<CatalogEntry>, l: AttribList<A>, primitive: nat): seq<Call>
    reads Arrays(l)`data
  {
    BindCalls(l, attribs) + [DrawArrays(primitive, 0, AsI32(Len(l)))] + [Call.GetError] + DisableCalls(ListSlots(l, attribs))
  }

  /** The whole command stream of a `draw` that reaches the driver's draw call. */
  function DrawCalls<A>(p: Program, fields: seq<UniformFieldDecl>, l: AttribList<A>, primitive: nat): seq<Call>
    reads Arrays(l)`data
  {
    [UseProgram(p.id)] + UniformsCalls(fields, p.uniforms) + DrawTail(p.attribs, l, primitive)
  }

  /** The second half of `draw`: bind the list, draw, check the error, drop the guards. */
  method BindAndDraw<A>(p: Program, attribs: AttribList<A>, primitive: nat, raised: nat)
    returns (check: Result<(), GlError>)
    requires ListValid(attribs, p.gl)
    requires forall a :: a in Arrays(attribs) ==> allocated(a)
    modifies Arrays(attribs), p.gl
    ensures ListValid(attribs, p.gl)
    ensures unchanged(Arrays(attribs)`data)
    ensures forall a :: a in Arrays(attribs) ==> a.MirrorState() == old(AfterBind(a.MirrorState(), a.data))
    ensures forall a :: a in Arrays(attribs) ==> (a.dirty <==> a.data == [])
    ensures check == ErrorOutcome(Sticky(old(p.gl.error), raised))
    ensures p.gl.calls == old(p.gl.calls) + old(DrawTail(p.attribs, attribs, primitive))
    ensures p.gl.Snapshot() == old(p.gl.Snapshot()).(
      arrayBuffer := old(BufferAfter(attribs, p.gl.arrayBuffer)),
      enabledAttribs := old(p.gl.enabledAttribs) - Elems(ListSlots(attribs, p.attribs)),
      error := NO_ERROR)
  {
    ghost var c0, b := p.gl.calls, BindCalls(attribs, p.attribs);
    var n := Len(attribs);
    ghost var d, t := [DrawArrays(primitive, 0, AsI32(n))], DisableCalls(ListSlots(attribs, p.attribs));
    assert DrawTail(p.attribs, attribs, primitive) == b + d + [Call.GetError] + t;
    var keep := Bind(attribs, p, Arrays(attribs));
    assert p.gl.calls == c0 + b;
    forall a | a in Arrays(attribs)
      ensures a.dirty <==> a.data == []
    {
      assert old(a.Valid());
      AfterBindDirtyIffEmpty(old(a.MirrorState()), a.data);
    }
    label bound:
    var check0 := DrawAndDrop(p.gl, keep, primitive, AsI32(n), raised);
    assert unchanged@bound(Arrays(attribs));
    assert p.gl.calls == (c0 + b) + (d + [Call.GetError] + t);
    AppendAssocTail(c0, b, d, [Call.GetError], t);
    return check0;
  }

  /**
    * The end of `draw`: the driver's draw call, which raises `raised`,
    * `check_gl`, and the drop of the attribute guards.
    */
  method DrawAndDrop(gl: Context, keep: seq<EnablerVertexAttribArray>, primitive: nat, count: i32, raised: nat)
    returns (check: Result<(), GlError>)
    requires forall k :: 0 <= k < |keep| ==> keep[k].gl == gl
    modifies gl
    ensures check == ErrorOutcome(Sticky(old(gl.error), raised))
    ensures gl.Snapshot() == old(gl.Snapshot()).(
      enabledAttribs := old(gl.enabledAttribs) - Elems(Slots(keep)),
      error := NO_ERROR)
    ensures gl.calls == old(gl.calls) + ([DrawArrays(primitive, 0, count)] + [Call.GetError] + DisableCalls(Slots(keep)))
  {
    ghost var c0 := gl.calls;
    gl.Draw(primitive, 0, count, raised);
    check := CheckGl(gl);
    DropAll(keep, gl);
    AppendAssoc4(c0, [DrawArrays(primitive, 0, count)], [Call.GetError], DisableCalls(Slots(keep)), []);
  }

  /** The first half of `draw`: use the program, then apply the uniforms until one panics. */
  method UseWithUniforms(p: Program, fields: seq<UniformFieldDecl>) returns (k: nat)
    modifies p.gl
    ensures k == ImplementedPrefix(fields, p.uniforms)
    ensures p.gl.Snapshot() == old(p.gl.Snapshot()).(program := p.id)
    ensures p.gl.calls == old(p.gl.calls) + [UseProgram(p.id)] + UniformsCalls(fields, p.uniforms[..k])
  {
    p.gl.UseProgramId(p.id);
    k := ApplyUniforms(fields, p.uniforms, p.gl);
  }

  /**
    * `Program::draw`: nothing at all for an empty list; otherwise uses the
    * program, applies the uniforms, binds the attributes, draws `len` vertices
    * from vertex 0, checks the driver error and drops the attribute guards.
    * `raised` is the error the driver raises for the draw call (NO_ERROR
    * when it succeeds); `check_gl` reports it unless an earlier error is
    * still pending.
    */
  method DrawProgram<A>(p: Program, fields: seq<UniformFieldDecl>, attribs: AttribList<A>, primitive: nat, raised: nat)
    returns (outcome: DrawOutcome)
    requires ListValid(attribs, p.gl)
    requires forall a :: a in Arrays(attribs) ==> allocated(a)
    modifies Arrays(attribs), p.gl
    ensures ListValid(attribs, p.gl)
    ensures unchanged(Arrays(attribs)`data)
    ensures old(Len(attribs)) == 0 ==>
      outcome == NothingToDraw && p.gl.calls == old(p.gl.calls) && p.gl.Snapshot() == old(p.gl.Snapshot()) &&
      unchanged(Arrays(attribs))
    ensures old(Len(attribs)) > 0 && ImplementedPrefix(fields, p.uniforms) < |p.uniforms| ==>
      outcome == Panicked && unchanged(Arrays(attribs)) &&
      p.gl.Snapshot() == old(p.gl.Snapshot()).(program := p.id) &&
      p.gl.calls == old(p.gl.calls) + [UseProgram(p.id)] +
        UniformsCalls(fields, p.uniforms[..ImplementedPrefix(fields, p.uniforms)])
    ensures old(Len(attribs)) > 0 && ImplementedPrefix(fields, p.uniforms) == |p.uniforms| ==>
      outcome == Drawn(ErrorOutcome(Sticky(old(p.gl.error), raised))) &&
      (forall a :: a in Arrays(attribs) ==> a.MirrorState() == old(AfterBind(a.MirrorState(), a.data))) &&
      (forall a :: a in Arrays(attribs) ==> (a.dirty <==> a.data == [])) &&
      p.gl.calls == old(p.gl.calls) + old(DrawCalls(p, fields, attribs, primitive)) &&
      p.gl.Snapshot() == old(p.gl.Snapshot()).(
        program := p.id,
        arrayBuffer := old(BufferAfter(attribs, p.gl.arrayBuffer)),
        enabledAttribs := old(p.gl.enabledAttribs) - Elems(ListSlots(attribs, p.attribs)),
        error := NO_ERROR)
  {
    var n := Len(attribs);
    if n == 0 {
      return NothingToDraw;
    }
    ghost var c0, tail := p.gl.calls, DrawTail(p.attribs, attribs, primitive);
    ghost var u := UniformsCalls(fields, p.uniforms);
    assert DrawCalls(p, fields, attribs, primitive) == [UseProgram(p.id)] + u + tail;
    var k := UseWithUniforms(p, fields);
    assert unchanged(Arrays(attribs));
    if k < |p.uniforms| {
      return Panicked;
    }
    assert p.uniforms[..k] == p.uniforms;
    assert p.gl.calls == c0 + [UseProgram(p.id)] + u;
    assert DrawTail(p.attribs, attribs, primitive) == tail;
    var check := BindAndDraw(p, attribs, primitive, raised);
    assert p.gl.calls == c0 + [UseProgram(p.id)] + u + tail;
    AppendAssoc4(c0, [UseProgram(p.id)], u, tail, []);
    return Drawn(check);
  }

  /** The draw commands among `calls`. */
  function Draws(calls: seq<Call>): seq<Call>
  {
    if calls == [] then []
    else Draws(calls[..|calls| - 1]) + if calls[|calls| - 1].DrawArrays? then [calls[|calls| - 1]] else []
  }

  lemma {:induction false} DrawsAppend(s: seq<Call>, t: seq<Call>)
    ensures Draws(s + t) == Draws(s) + Draws(t)
  {
    if t != [] {
      DrawsAppend(s, t[..|t| - 1]);
      assert (s + t)[..|s + t| - 1] == s + t[..|t| - 1];
    } else {
      assert s + t == s;
    }
  }

  lemma SingleDraw(c: Call)
    ensures Draws([c]) == if c.DrawArrays? then [c] else []
  {
    assert [c][..0] == [];
  }

  /** The commands of one catalog attribute contain no draw. */
  lemma AttribCallsDrawNothing(layout: RecordLayout, a: CatalogEntry, start: nat)
    ensures Draws(AttribCalls(layout, a, start)) == []
  {
    var calls := AttribCalls(layout, a, start);
    if calls != [] {
      SingleDraw(calls[0]);
      SingleDraw(calls[1]);
      assert calls == [calls[0]] + [calls[1]];
      DrawsAppend([calls[0]], [calls[1]]);
    }
  }

  /** The attribute loop issues no draw. */
  lemma {:induction false} PointerCallsDrawNothing(layout: RecordLayout, attribs: seq<CatalogEntry>, start: nat)
    ensures Draws(PointerCalls(layout, attribs, start)) == []
  {
    if attribs != [] {
      var init := attribs[..|attribs| - 1];
      PointerCallsDrawNothing(layout, init, start);
      AttribCallsDrawNothing(layout, attribs[|attribs| - 1], start);
      DrawsAppend(PointerCalls(layout, init, start), AttribCalls(layout, attribs[|attribs| - 1], start));
    }
  }

  /** Binding a list issues no draw. */
  lemma {:induction false} BindCallsDrawNothing<A>(l: AttribList<A>, attribs: seq<CatalogEntry>)
    ensures Draws(BindCalls(l, attribs)) == []
  {
    match l
    case Whole(a) =>
      SingleDraw(BindArrayBuffer(a.buffer));
      PointerCallsDrawNothing(a.layout, attribs, 0);
      DrawsAppend(BufferCalls(a), PointerCalls(a.layout, attribs, 0));
    case Sub(a, s, _) =>
      SingleDraw(BindArrayBuffer(a.buffer));
      PointerCallsDrawNothing(a.layout, attribs, s);
      DrawsAppend(BufferCalls(a), PointerCalls(a.layout, attribs, s));
    case Pair(x, y) =>
      BindCallsDrawNothing(x, attribs);
      BindCallsDrawNothing(y, attribs);
      DrawsAppend(BindCalls(x, attribs), BindCalls(y, attribs));
    case Nil(_) =>
  }

  /** The uniform loop issues no draw. */
  lemma {:induction false} UniformsCallsDrawNothing(fields: seq<UniformFieldDecl>, catalog: seq<CatalogEntry>)
    ensures Draws(UniformsCalls(fields, catalog)) == []
  {
    if catalog != [] {
      var u := catalog[|catalog| - 1];
      UniformsCallsDrawNothing(fields, catalog[..|catalog| - 1]);
      var c := UniformCalls(UniformEffectOf(fields, u), u);
      if c != [] {
        SingleDraw(c[0]);
        assert c == [c[0]];
      }
      DrawsAppend(UniformsCalls(fields, catalog[..|catalog| - 1]), c);
    }
  }

  /** Dropping guards issues no draw. */
  lemma {:induction false} DisableCallsDrawNothing(slots: seq<nat>)
    ensures Draws(DisableCalls(slots)) == []
  {
    if slots != [] {
      DisableCallsDrawNothing(slots[..|slots| - 1]);
      SingleDraw(DisableVertexAttribArray(slots[|slots| - 1]));
      DrawsAppend(DisableCalls(slots[..|slots| - 1]), [DisableVertexAttribArray(slots[|slots| - 1])]);
    }
  }

  /** After the uniforms, a `draw` issues exactly one draw call, sized to the list's length. */
  lemma DrawTailOneDraw<A>(attribs: seq<CatalogEntry>, l: AttribList<A>, primitive: nat)
    ensures Draws(DrawTail(attribs, l, primitive)) == [DrawArrays(primitive, 0, AsI32(Len(l)))]
  {
    var b := BindCalls(l, attribs);
    var c := DrawArrays(primitive, 0, AsI32(Len(l)));
    var d := DisableCalls(ListSlots(l, attribs));
    BindCallsDrawNothing(l, attribs);
    DisableCallsDrawNothing(ListSlots(l, attribs));
    SingleDraw(c);
    SingleDraw(Call.GetError);
    DrawsAppend(b, [c]);
    assert Draws(b + [c]) == [c];
    DrawsAppend(b + [c], [Call.GetError]);
    assert Draws(b + [c] + [Call.GetError]) == [c];
    DrawsAppend(b + [c] + [Call.GetError], d);
  }

  /** One catalog attribute enables its slot once when it matches a field, and disables nothing. */
  lemma AttribCallsEnables(layout: RecordLayout, a: CatalogEntry, start: nat, s: nat)
    ensures Occurrences(AttribCalls(layout, a, start), EnableVertexAttribArray(s)) ==
      (if MatchAttrib(layout.fields, a.name).Some? && a.location == s then 1 else 0)
    ensures Occurrences(AttribCalls(layout, a, start), DisableVertexAttribArray(s)) == 0
  {
    var c := AttribCalls(layout, a, start);
    if c != [] {
      assert c == [c[0], c[1]];
      OccurrencesTwo(c[0], c[1], EnableVertexAttribArray(s));
      OccurrencesTwo(c[0], c[1], DisableVertexAttribArray(s));
    }
  }

  /** The attribute loop enables each slot as often as the guards it keeps hold it, and disables nothing. */
  lemma {:induction false} PointerCallsEnables(layout: RecordLayout, attribs: seq<CatalogEntry>, start: nat, s: nat)
    ensures Occurrences(PointerCalls(layout, attribs, start), EnableVertexAttribArray(s)) == SlotCount(BindSlots(layout, attribs), s)
    ensures Occurrences(PointerCalls(layout, attribs, start), DisableVertexAttribArray(s)) == 0
  {
    if attribs != [] {
      var init, a := attribs[..|attribs| - 1], attribs[|attribs| - 1];
      var last: seq<nat> := if MatchAttrib(layout.fields, a.name).Some? then [a.location] else [];
      PointerCallsEnables(layout, init, start, s);
      AttribCallsEnables(layout, a, start, s);
      OccurrencesAppend(PointerCalls(layout, init, start), AttribCalls(layout, a, start), EnableVertexAttribArray(s));
      OccurrencesAppend(PointerCalls(layout, init, start), AttribCalls(layout, a, start), DisableVertexAttribArray(s));
      SlotCountAppend(BindSlots(layout, init), last, s);
      if last != [] {
        assert last[..0] == [];
      }
    }
  }

  /** The bind of an array buffer enables and disables nothing. */
  lemma BufferCallsEnableNothing<A>(a: DynamicVertexArray<A>, s: nat)
    ensures Occurrences(BufferCalls(a), EnableVertexAttribArray(s)) == 0
    ensures Occurrences(BufferCalls(a), DisableVertexAttribArray(s)) == 0
  {
    if a.data != [] {
      OccurrencesOne(BindArrayBuffer(a.buffer), EnableVertexAttribArray(s));
      OccurrencesOne(BindArrayBuffer(a.buffer), DisableVertexAttribArray(s));
    }
  }

  /**
    * In the command stream `bind` issues, every slot is enabled exactly as
    * often as the guards it returns hold it, and no slot is disabled.
    */
  lemma {:induction false} BindCallsEnables<A>(l: AttribList<A>, attribs: seq<CatalogEntry>, s: nat)
    ensures Occurrences(BindCalls(l, attribs), EnableVertexAttribArray(s)) == SlotCount(ListSlots(l, attribs), s)
    ensures Occurrences(BindCalls(l, attribs), DisableVertexAttribArray(s)) == 0
  {
    match l
    case Whole(a) =>
      BufferCallsEnableNothing(a, s);
      PointerCallsEnables(a.layout, attribs, 0, s);
      OccurrencesAppend(BufferCalls(a), PointerCalls(a.layout, attribs, 0), EnableVertexAttribArray(s));
      OccurrencesAppend(BufferCalls(a), PointerCalls(a.layout, attribs, 0), DisableVertexAttribArray(s));
    case Sub(a, start, _) =>
      BufferCallsEnableNothing(a, s);
      PointerCallsEnables(a.layout, attribs, start, s);
      OccurrencesAppend(BufferCalls(a), PointerCalls(a.layout, attribs, start), EnableVertexAttribArray(s));
      OccurrencesAppend(BufferCalls(a), PointerCalls(a.layout, attribs, start), DisableVertexAttribArray(s));
    case Pair(x, y) =>
      BindCallsEnables(x, attribs, s);
      BindCallsEnables(y, attribs, s);
      OccurrencesAppend(BindCalls(x, attribs), BindCalls(y, attribs), EnableVertexAttribArray(s));
      OccurrencesAppend(BindCalls(x, attribs), BindCalls(y, attribs), DisableVertexAttribArray(s));
      SlotCountAppend(ListSlots(x, attribs), ListSlots(y, attribs), s);
    case Nil(_) =>
  }

  /** Enables and disables of `s` in three consecutive command blocks: only the first enables, only the last disables. */
  lemma BalancedConcat(b: seq<Call>, m: seq<Call>, d: seq<Call>, n: nat, s: nat)
    requires Occurrences(b, EnableVertexAttribArray(s)) == n && Occurrences(b, DisableVertexAttribArray(s)) == 0
    requires Occurrences(m, EnableVertexAttribArray(s)) == 0 && Occurrences(m, DisableVertexAttribArray(s)) == 0
    requires Occurrences(d, EnableVertexAttribArray(s)) == 0 && Occurrences(d, DisableVertexAttribArray(s)) == n
    ensures Occurrences(b + m + d, EnableVertexAttribArray(s)) == n
    ensures Occurrences(b + m + d, DisableVertexAttribArray(s)) == n
  {
    OccurrencesAppend(b, m, EnableVertexAttribArray(s));
    OccurrencesAppend(b, m, DisableVertexAttribArray(s));
    OccurrencesAppend(b + m, d, EnableVertexAttribArray(s));
    OccurrencesAppend(b + m, d, DisableVertexAttribArray(s));
  }

  /**
    * Over the bind, draw, check and drop of a `draw`, the guards disable every
    * slot exactly as often as the bind enabled it.
    */
  lemma DrawTailBalanced<A>(attribs: seq<CatalogEntry>, l: AttribList<A>, primitive: nat, s: nat)
    ensures Occurrences(DrawTail(attribs, l, primitive), EnableVertexAttribArray(s)) == SlotCount(ListSlots(l, attribs), s)
    ensures Occurrences(DrawTail(attribs, l, primitive), DisableVertexAttribArray(s)) == SlotCount(ListSlots(l, attribs), s)
  {
    var m := [DrawArrays(primitive, 0, AsI32(Len(l))), Call.GetError];
    assert DrawTail(attribs, l, primitive) == BindCalls(l, attribs) + m + DisableCalls(ListSlots(l, attribs));
    BindCallsEnables(l, attribs, s);
    EachSlotDisabledOncePerEnable(ListSlots(l, attribs), s);
    OccurrencesTwo(m[0], m[1], EnableVertexAttribArray(s));
    OccurrencesTwo(m[0], m[1], DisableVertexAttribArray(s));
    BalancedConcat(BindCalls(l, attribs), m, DisableCalls(ListSlots(l, attribs)), SlotCount(ListSlots(l, attribs), s), s);
  }

  /** A `draw` that reaches the driver issues exactly one draw call, sized to the list's length. */
  lemma DrawIssuesOneDraw<A>(p: Program, fields: seq<UniformFieldDecl>, l: AttribList<A>, primitive: nat)
    ensures Draws(DrawCalls(p, fields, l, primitive)) == [DrawArrays(primitive, 0, AsI32(Len(l)))]
  {
    var u := UniformsCalls(fields, p.uniforms);
    UniformsCallsDrawNothing(fields, p.uniforms);
    SingleDraw(UseProgram(p.id));
    DrawsAppend([UseProgram(p.id)], u);
    assert Draws([UseProgram(p.id)] + u) == [];
    DrawTailOneDraw(p.attribs, l, primitive);
    DrawsAppend([UseProgram(p.id)] + u, DrawTail(p.attribs, l, primitive));
  }
}
