/**
  * The attribute side of the typed binding layer (glr.rs): what `AttribField`
  * says about each field type (component count and GL scalar type), the record
  * layout a vertex type declares, and the name matcher that the `attrib!`
  * macro generates for it.
  */
module Attributes {
  import opened Wrappers
  import opened Gl

  /** The Rust field types that implement `AttribField`. */
  datatype FieldType =
    | F32
    | U8
    | U32
    | I32
    | RgbaColor                           // `Rgba`: four `f32`, `#[repr(C)]`
    | ArrayOf(elem: FieldType, n: nat)   // `[F; N]`
    | Vector2(elem: FieldType)           // `cgmath::Vector2<F>`
    | Vector3(elem: FieldType)           // `cgmath::Vector3<F>`

  /** What `AttribField::detail` returns: component count and GL scalar type. */
  datatype Detail = Detail(components: nat, glType: nat)

  /**
    * The `AttribField::detail` table, with the GL type that `u8` maps to as a
    * parameter: the source passes BYTE, the corrected model UNSIGNED_BYTE.
    */
  function DetailUsing(t: FieldType, u8Type: nat): Detail
  {
    match t
    case F32 => Detail(1, FLOAT)
    case U8 => Detail(1, u8Type)
    case U32 => Detail(1, UNSIGNED_INT)
    case I32 => Detail(1, INT)
    case RgbaColor => Detail(4, FLOAT)
    case ArrayOf(e, n) =>
      var d := DetailUsing(e, u8Type); Detail(n * d.components, d.glType)
    case Vector2(e) =>
      var d := DetailUsing(e, u8Type); Detail(2 * d.components, d.glType)
    case Vector3(e) =>
      var d := DetailUsing(e, u8Type); Detail(3 * d.components, d.glType)
  }

  /** `AttribField::detail` exactly as the source has it: `u8` is described as BYTE. */
  function DetailAsWritten(t: FieldType): Detail
  {
    DetailUsing(t, BYTE)
  }

  /** `AttribField::detail` with `u8` described as UNSIGNED_BYTE; the rest of the model uses this. */
  function FieldDetail(t: FieldType): Detail
  {
    DetailUsing(t, UNSIGNED_BYTE)
  }

  // An independent description of the Rust side: the scalar a field type is
  // built from and the number of bytes the field occupies in the record.

  /** The scalar Rust type a field type is made of. */
  function Scalar(t: FieldType): (s: FieldType)
    ensures s in {F32, U8, U32, I32}
  {
    match t
    case RgbaColor => F32
    case ArrayOf(e, _) => Scalar(e)
    case Vector2(e) => Scalar(e)
    case Vector3(e) => Scalar(e)
    case _ => t
  }

  /** `size_of` of the field type. */
  function ByteSize(t: FieldType): nat
  {
    match t
    case F32 => 4
    case U8 => 1
    case U32 => 4
    case I32 => 4
    case RgbaColor => 16
    case ArrayOf(e, n) => n * ByteSize(e)
    case Vector2(e) => 2 * ByteSize(e)
    case Vector3(e) => 3 * ByteSize(e)
  }

  predicate RustSigned(s: FieldType) { s == I32 || s == F32 }
  predicate RustInteger(s: FieldType) { s == U8 || s == U32 || s == I32 }

  /** Bytes per component of a GL scalar type. */
  function GlScalarSize(glType: nat): nat
  {
    if glType == BYTE || glType == UNSIGNED_BYTE then 1 else 4
  }

  predicate GlSigned(glType: nat) { glType == BYTE || glType == INT || glType == FLOAT }
  predicate GlInteger(glType: nat) { glType in {BYTE, UNSIGNED_BYTE, INT, UNSIGNED_INT} }

  /** The value the driver reads from one stored byte of a BYTE or UNSIGNED_BYTE component. */
  function GlReadByte(glType: nat, b: nat): int
    requires b < 256
  {
    if glType == BYTE && b >= 128 then b - 256 else b
  }

  /**
    * The corrected table describes every field faithfully: the GL scalar type
    * has the Rust scalar's width, signedness and kind, and the components
    * times their width cover exactly the bytes of the field, so the driver
    * never reads past it.
    */
  lemma {:induction false} FieldDetailFaithful(t: FieldType)
    ensures GlScalarSize(FieldDetail(t).glType) == ByteSize(Scalar(t))
    ensures GlSigned(FieldDetail(t).glType) == RustSigned(Scalar(t))
    ensures GlInteger(FieldDetail(t).glType) == RustInteger(Scalar(t))
    ensures FieldDetail(t).components * GlScalarSize(FieldDetail(t).glType) == ByteSize(t)
  {
    match t
    case ArrayOf(e, n) =>
      FieldDetailFaithful(e);
      MulAssoc(n, FieldDetail(e).components, GlScalarSize(FieldDetail(e).glType));
    case Vector2(e) =>
      FieldDetailFaithful(e);
      MulAssoc(2, FieldDetail(e).components, GlScalarSize(FieldDetail(e).glType));
    case Vector3(e) =>
      FieldDetailFaithful(e);
      MulAssoc(3, FieldDetail(e).components, GlScalarSize(FieldDetail(e).glType));
    case _ =>
  }

  lemma MulAssoc(a: nat, b: nat, c: nat)
    ensures (a * b) * c == a * (b * c)
  {
  }

  /** The two tables agree on every field type whose scalar is not `u8`. */
  lemma {:induction false} AsWrittenAgreesAwayFromU8(t: FieldType)
    requires Scalar(t) != U8
    ensures DetailAsWritten(t) == FieldDetail(t)
  {
    match t
    case ArrayOf(e, _) => AsWrittenAgreesAwayFromU8(e);
    case Vector2(e) => AsWrittenAgreesAwayFromU8(e);
    case Vector3(e) => AsWrittenAgreesAwayFromU8(e);
    case _ =>
  }

  /**
    * As written, a `u8` field is described as a signed type, so the driver
    * reads a stored 200 as -56.
    */
  lemma U8AsWrittenReadsNegative()
    ensures !RustSigned(Scalar(U8)) && GlSigned(DetailAsWritten(U8).glType)
    ensures GlReadByte(DetailAsWritten(U8).glType, 200) == -56
  {
  }

  /** Corrected, every `u8` value is read back as itself. */
  lemma U8ReadsBack(b: nat)
    requires b < 256
    ensures GlReadByte(FieldDetail(U8).glType, b) == b
  {
  }

  /** One field of a vertex record as `attrib!` sees it: name, type, byte offset. */
  datatype AttribFieldDecl = AttribFieldDecl(name: string, ty: FieldType, offset: nat)

  /** A vertex record type: its `size_of` and its fields in declaration order. */
  datatype RecordLayout = RecordLayout(size: nat, fields: seq<AttribFieldDecl>)

  /** What `AttribProvider::apply` returns for a matched attribute: (size, type, offset). */
  datatype AttribPointer = AttribPointer(components: nat, glType: nat, offset: nat)

  /** Every field lies inside the record (what `offset_of!` and `size_of` guarantee). */
  ghost predicate FieldsFit(layout: RecordLayout)
  {
    forall i :: 0 <= i < |layout.fields| ==>
      layout.fields[i].offset + ByteSize(layout.fields[i].ty) <= layout.size
  }

  /** Field `i` is the first field called `name`. */
  ghost predicate FirstNamed(fields: seq<AttribFieldDecl>, name: string, i: int)
  {
    0 <= i < |fields| && fields[i].name == name &&
    forall j :: 0 <= j < i ==> fields[j].name != name
  }

  function PointerOf(f: AttribFieldDecl): AttribPointer
  {
    AttribPointer(FieldDetail(f.ty).components, FieldDetail(f.ty).glType, f.offset)
  }

  /**
    * The `AttribProvider::apply` that `attrib!` generates: the field whose name
    * equals the attribute's name, described by `AttribField::detail` and its
    * offset, or None.
    */
  function MatchAttrib(fields: seq<AttribFieldDecl>, name: string): Option<AttribPointer>
  {
    if fields == [] then None
    else if fields[0].name == name then Some(PointerOf(fields[0]))
    else MatchAttrib(fields[1..], name)
  }

  /**
    * The generated matcher finds nothing exactly when no field has the
    * attribute's name, and otherwise describes the first field that has it.
    */
  lemma {:induction false} MatchAttribFirstField(fields: seq<AttribFieldDecl>, name: string)
    ensures MatchAttrib(fields, name).None? <==> forall i :: 0 <= i < |fields| ==> fields[i].name != name
    ensures MatchAttrib(fields, name).Some? ==>
      exists i :: FirstNamed(fields, name, i) && MatchAttrib(fields, name).value == PointerOf(fields[i])
  {
    if fields == [] {
    } else if fields[0].name == name {
      assert FirstNamed(fields, name, 0);
    } else {
      MatchAttribFirstField(fields[1..], name);
      assert forall i :: 1 <= i < |fields| ==> fields[i] == fields[1..][i - 1];
      assert forall i :: FirstNamed(fields[1..], name, i) ==> FirstNamed(fields, name, i + 1);
    }
  }

  /**
    * On a record whose fields fit in it, a matched attribute never makes the
    * driver read past the end of a record.
    */
  lemma MatchedAttribWithinRecord(layout: RecordLayout, name: string)
    requires FieldsFit(layout)
    ensures var r := MatchAttrib(layout.fields, name);
      r.Some? ==> r.value.offset + r.value.components * GlScalarSize(r.value.glType) <= layout.size
  {
    MatchAttribFirstField(layout.fields, name);
    var r := MatchAttrib(layout.fields, name);
    if r.Some? {
      var i :| FirstNamed(layout.fields, name, i) && r.value == PointerOf(layout.fields[i]);
      FieldDetailFaithful(layout.fields[i].ty);
    }
  }
}
