/**
  * The uniform side of the typed binding layer (glr.rs): the field types that
  * implement `UniformField`, the shader-side name the `uniform!` macro gives
  * each field, and the `UniformProvider::apply` it generates.
  */
module Uniforms {
  import opened Wrappers
  import opened Gl
  import opened Programs

  /** The Rust field types that implement `UniformField`. */
  datatype UniformType =
    | Mat4                                  // `cgmath::Matrix4<f32>`
    | Mat3                                  // `cgmath::Matrix3<f32>`
    | Vec3                                  // `cgmath::Vector3<f32>`
    | IntScalar                             // `i32`
    | FloatScalar                           // `f32`
    | Color                                 // `Rgba`
    | ArrayOf(elem: UniformType, n: nat, literalLen: bool)   // `[T; N]`; `literalLen` when `N` is written as a literal

  /** One field of a `uniform!` struct, in declaration order. */
  datatype UniformFieldDecl = UniformFieldDecl(name: string, ty: UniformType)

  /** The field's type is an array whose length is written as a literal, `[T; 4]`. */
  predicate LiteralArray(t: UniformType)
  {
    t.ArrayOf? && t.literalLen
  }

  /**
    * The name `uniform!` compares against: for an array field whose length
    * is a literal, the name of its first element, `name[0]`; for every other
    * field, including an array whose length is a named constant, the field's
    * own name.
    */
  function ShaderName(f: UniformFieldDecl): (r: string)
    ensures r == f.name <==> !LiteralArray(f.ty)
    ensures LiteralArray(f.ty) ==> |r| == |f.name| + 3 && r[..|f.name|] == f.name && r[|f.name|..] == "[0]"
  {
    if LiteralArray(f.ty) then f.name + "[0]" else f.name
  }

  /**
    * The native entry point `UniformField::apply` sends a field's value
    * through; none for arrays, whose `apply` is unimplemented.
    */
  function Setter(t: UniformType): (r: Option<UniformSetter>)
    ensures r.None? <==> t.ArrayOf?
  {
    match t
    case Mat4 => Some(Matrix4f)
    case Mat3 => Some(Matrix3f)
    case Vec3 => Some(Vector3f)
    case IntScalar => Some(Int1)
    case FloatScalar => Some(Float1)
    case Color => Some(Float4)
    case ArrayOf(_, _, _) => None
  }

  /** Field `i` is the first field whose shader-side name is `name`. */
  ghost predicate FirstShaderNamed(fields: seq<UniformFieldDecl>, name: string, i: int)
  {
    0 <= i < |fields| && ShaderName(fields[i]) == name &&
    forall j :: 0 <= j < i ==> ShaderName(fields[j]) != name
  }

  /** The field the generated `apply` picks for a uniform called `name`. */
  function MatchUniform(fields: seq<UniformFieldDecl>, name: string): Option<UniformFieldDecl>
  {
    if fields == [] then None
    else if ShaderName(fields[0]) == name then Some(fields[0])
    else MatchUniform(fields[1..], name)
  }

  /** The matcher finds nothing exactly when no shader-side name fits, and otherwise the first field that fits. */
  lemma {:induction false} MatchUniformFirstField(fields: seq<UniformFieldDecl>, name: string)
    ensures MatchUniform(fields, name).None? <==> forall i :: 0 <= i < |fields| ==> ShaderName(fields[i]) != name
    ensures MatchUniform(fields, name).Some? ==>
      exists i :: FirstShaderNamed(fields, name, i) && MatchUniform(fields, name).value == fields[i]
  {
    if fields == [] {
    } else if ShaderName(fields[0]) == name {
      assert FirstShaderNamed(fields, name, 0);
    } else {
      MatchUniformFirstField(fields[1..], name);
      assert forall i :: 1 <= i < |fields| ==> fields[i] == fields[1..][i - 1];
      assert forall i :: FirstShaderNamed(fields[1..], name, i) ==> FirstShaderNamed(fields, name, i + 1);
    }
  }

  /** What the generated `apply` does for one catalog uniform. */
  datatype UniformEffect =
    | NoField                                         // no field matches: nothing is sent
    | Sends(setter: UniformSetter, field: string)     // one `glUniform*` for the first match
    | Unimplemented(field: string)                    // the match is an array: `todo!()`

  /** The generated `apply` for the uniform `u`. */
  function UniformEffectOf(fields: seq<UniformFieldDecl>, u: CatalogEntry): UniformEffect
  {
    match MatchUniform(fields, u.name)
    case None => NoField
    case Some(f) =>
      match Setter(f.ty)
      case Some(s) => Sends(s, f.name)
      case None => Unimplemented(f.name)
  }

  /**
    * The generated `apply` sends nothing exactly when no field's shader-side
    * name is the uniform's; otherwise it acts on the first such field, through
    * that field's setter, or reaches `todo!()` when the field is an array.
    */
  lemma UniformEffectFirstMatch(fields: seq<UniformFieldDecl>, u: CatalogEntry)
    ensures var r := UniformEffectOf(fields, u);
      (r.NoField? <==> forall i :: 0 <= i < |fields| ==> ShaderName(fields[i]) != u.name) &&
      (r.Sends? ==> exists i :: (FirstShaderNamed(fields, u.name, i) &&
        r.field == fields[i].name && Setter(fields[i].ty) == Some(r.setter))) &&
      (r.Unimplemented? ==> exists i :: (FirstShaderNamed(fields, u.name, i) &&
        r.field == fields[i].name && fields[i].ty.ArrayOf?))
  {
    MatchUniformFirstField(fields, u.name);
  }

  /**
    * `UniformProvider::apply` as `uniform!` generates it: sends the value of
    * the first matching field to the uniform's location. Returns false on the
    * unimplemented array path, which panics in the source.
    */
  method ApplyUniform(fields: seq<UniformFieldDecl>, u: CatalogEntry, gl: Context) returns (ok: bool)
    modifies gl
    ensures ok <==> !UniformEffectOf(fields, u).Unimplemented?
    ensures gl.Snapshot() == old(gl.Snapshot())
    ensures gl.calls == old(gl.calls) + UniformCalls(UniformEffectOf(fields, u), u)
  {
    var effect := UniformEffectOf(fields, u);
    match effect
    case NoField =>
      ok := true;
    case Sends(setter, field) =>
      gl.Uniform(setter, u.location, field);
      ok := true;
    case Unimplemented(_) =>
      ok := false;
  }

  /**
    * An array field is applied only when the driver reports its first element,
    * `f.name + "[0]"`, and only if its length is a literal; an array whose
    * length is a named constant is never matched, so its uniform is skipped
    * rather than reaching `todo!()`.
    */
  lemma ArrayFieldEffect(f: UniformFieldDecl, u: CatalogEntry)
    requires f.ty.ArrayOf? && u.name == f.name + "[0]"
    ensures f.ty.literalLen ==> UniformEffectOf([f], u) == Unimplemented(f.name)
    ensures !f.ty.literalLen ==> UniformEffectOf([f], u) == NoField
  {
    assert [f][1..] == [];
    if !f.ty.literalLen {
      assert ShaderName(f) == f.name;
      assert |ShaderName(f)| != |u.name|;
      assert MatchUniform([f], u.name) == MatchUniform([], u.name);
    }
  }

  /** The driver commands one `apply` issues. */
  function UniformCalls(effect: UniformEffect, u: CatalogEntry): seq<Call>
  {
    if effect.Sends? then [SetUniform(effect.setter, u.location, effect.field)] else []
  }
}
