/**
  * Shader programs (glr.rs `Program`): linking from driver-reported compile and
  * link outcomes, and the uniform and attribute catalogs built from the
  * driver's reflection lists.
  */
module Programs {
  import opened Wrappers
  import opened Gl

  /** What `get_active_uniform` / `get_active_attribute` report for one index. */
  datatype ActiveInfo = ActiveInfo(name: string, size: int, ty: nat)

  /** One entry of a catalog (`Uniform` or `Attribute`): name, location, size, type. */
  datatype CatalogEntry = CatalogEntry(name: string, location: nat, size: int, ty: nat)

  /**
    * What one loop iteration of `from_source` keeps for a reported index:
    * nothing when the active-info query or the location lookup fails.
    */
  function EntryFor(info: Option<ActiveInfo>, locations: map<string, nat>): seq<CatalogEntry>
  {
    if info.Some? && info.value.name in locations then
      [CatalogEntry(info.value.name, locations[info.value.name], info.value.size, info.value.ty)]
    else []
  }

  /** The catalog the driver's reflection answers give, in driver index order. */
  function Catalog(active: seq<Option<ActiveInfo>>, locations: map<string, nat>): seq<CatalogEntry>
  {
    if active == [] then []
    else Catalog(active[..|active| - 1], locations) + EntryFor(active[|active| - 1], locations)
  }

  /** Index `i` of the reflection list survives into the catalog. */
  ghost predicate Kept(active: seq<Option<ActiveInfo>>, locations: map<string, nat>, i: int)
  {
    0 <= i < |active| && active[i].Some? && active[i].value.name in locations
  }

  /** Building the catalog of a concatenation concatenates the catalogs: order is kept. */
  lemma {:induction false} CatalogAppend(a: seq<Option<ActiveInfo>>, b: seq<Option<ActiveInfo>>, locations: map<string, nat>)
    ensures Catalog(a + b, locations) == Catalog(a, locations) + Catalog(b, locations)
  {
    if b != [] {
      var b' := b[..|b| - 1];
      CatalogAppend(a, b', locations);
      assert (a + b)[..|a + b| - 1] == a + b';
      assert (a + b)[|a + b| - 1] == b[|b| - 1];
      calc {
        Catalog(a + b, locations);
        Catalog(a + b', locations) + EntryFor(b[|b| - 1], locations);
        Catalog(a, locations) + Catalog(b', locations) + EntryFor(b[|b| - 1], locations);
      }
    } else {
      assert a + b == a;
    }
  }

  /** Every catalog entry comes from a kept index, with the location looked up for its name. */
  lemma {:induction false} CatalogSound(active: seq<Option<ActiveInfo>>, locations: map<string, nat>, e: CatalogEntry)
    requires e in Catalog(active, locations)
    ensures exists i :: (Kept(active, locations, i) &&
      e == CatalogEntry(active[i].value.name, locations[active[i].value.name], active[i].value.size, active[i].value.ty))
  {
    var init := active[..|active| - 1];
    if e in Catalog(init, locations) {
      CatalogSound(init, locations, e);
      var i :| Kept(init, locations, i) &&
        e == CatalogEntry(init[i].value.name, locations[init[i].value.name], init[i].value.size, init[i].value.ty);
      assert Kept(active, locations, i);
    } else {
      assert Kept(active, locations, |active| - 1);
    }
  }

  /** Every kept index gives an entry. */
  lemma {:induction false} CatalogComplete(active: seq<Option<ActiveInfo>>, locations: map<string, nat>, i: int)
    requires Kept(active, locations, i)
    ensures CatalogEntry(active[i].value.name, locations[active[i].value.name], active[i].value.size, active[i].value.ty)
      in Catalog(active, locations)
  {
    var init := active[..|active| - 1];
    if i < |active| - 1 {
      assert Kept(init, locations, i);
      CatalogComplete(init, locations, i);
    }
  }

  /** A catalog has at most one entry per reported index. */
  lemma {:induction false} CatalogBounded(active: seq<Option<ActiveInfo>>, locations: map<string, nat>)
    ensures |Catalog(active, locations)| <= |active|
  {
    if active != [] {
      CatalogBounded(active[..|active| - 1], locations);
    }
  }

  /**
    * The catalog loop of `from_source`: for every index below the reported
    * count, skip it when the active-info query or the location lookup fails,
    * otherwise push the entry.
    */
  method BuildCatalog(active: seq<Option<ActiveInfo>>, locations: map<string, nat>) returns (catalog: seq<CatalogEntry>)
    ensures catalog == Catalog(active, locations)
  {
    catalog := [];
    var i := 0;
    while i < |active|
      invariant 0 <= i <= |active|
      invariant catalog == Catalog(active[..i], locations)
    {
      assert active[..i + 1][..i] == active[..i];
      var info := active[i];
      if info.Some? {
        if info.value.name in locations {
          catalog := catalog + [CatalogEntry(info.value.name, locations[info.value.name], info.value.size, info.value.ty)];
        }
      }
      i := i + 1;
    }
    assert active[..i] == active;
  }

  /** Entry `i` is the first one called `name`. */
  ghost predicate FirstWithName(catalog: seq<CatalogEntry>, name: string, i: int)
  {
    0 <= i < |catalog| && catalog[i].name == name &&
    forall j :: 0 <= j < i ==> catalog[j].name != name
  }

  /** `attrib_by_name` / `uniform_by_name`: the first entry whose name is exactly `name`. */
  function FindByName(catalog: seq<CatalogEntry>, name: string): (r: Option<CatalogEntry>)
    ensures r.None? <==> forall i :: 0 <= i < |catalog| ==> catalog[i].name != name
    ensures r.Some? ==> exists i :: FirstWithName(catalog, name, i) && r.value == catalog[i]
  {
    if catalog == [] then None
    else if catalog[0].name == name then
      assert FirstWithName(catalog, name, 0);
      Some(catalog[0])
    else
      var r := FindByName(catalog[1..], name);
      assert forall i :: 1 <= i < |catalog| ==> catalog[i] == catalog[1..][i - 1];
      assert forall i :: FirstWithName(catalog[1..], name, i) ==> FirstWithName(catalog, name, i + 1);
      r
  }

  /** A linked program: its name and its two catalogs, never changed afterwards. */
  datatype Program = Program(gl: Context, id: ObjectId, uniforms: seq<CatalogEntry>, attribs: seq<CatalogEntry>)

  /**
    * The driver's answer for one shader stage. A stage whose object cannot be
    * created and one that does not compile both end `Shader::compile` with
    * `Err(GLError(get_error()))`; `code` is what `get_error` reports then.
    */
  datatype StageOutcome = Compiled | StageFailed(code: nat)

  /** The driver's reflection answers for a linked program. */
  datatype Reflection = Reflection(
    uniforms: seq<Option<ActiveInfo>>,
    uniformLocations: map<string, nat>,
    attributes: seq<Option<ActiveInfo>>,
    attribLocations: map<string, nat>)

  /**
    * The driver's answer for program creation and linking: either a linked
    * program (its name and its reflection lists), or a failure of
    * `create_program` or of the link, with the code `get_error` reports then.
    */
  datatype LinkOutcome = Linked(id: ObjectId, reflection: Reflection) | LinkFailed(code: nat)

  /**
    * `Program::from_source`: purges the pending error, then compiles the
    * vertex, fragment and (if given) geometry stages in that order and
    * returns the first failure, with the error `get_error` reads right after
    * it; then the program is created and linked; on success both catalogs
    * are built.
    */
  method FromSource(gl: Context, vertex: StageOutcome, fragment: StageOutcome, geometry: Option<StageOutcome>, link: LinkOutcome)
    returns (r: GlResult<Program>)
    modifies gl
    ensures vertex.StageFailed? ==> r == Err(GlError(vertex.code))
    ensures vertex.Compiled? && fragment.StageFailed? ==> r == Err(GlError(fragment.code))
    ensures vertex.Compiled? && fragment.Compiled? && geometry.Some? && geometry.value.StageFailed? ==>
      r == Err(GlError(geometry.value.code))
    ensures vertex.Compiled? && fragment.Compiled? && (geometry.None? || geometry.value.Compiled?) && link.LinkFailed? ==>
      r == Err(GlError(link.code))
    ensures r.Ok? <==> vertex.Compiled? && fragment.Compiled? && (geometry.None? || geometry.value.Compiled?) && link.Linked?
    ensures r.Ok? ==> r.value.gl == gl && r.value.id == link.id
    ensures r.Ok? ==> r.value.uniforms == Catalog(link.reflection.uniforms, link.reflection.uniformLocations)
    ensures r.Ok? ==> r.value.attribs == Catalog(link.reflection.attributes, link.reflection.attribLocations)
    ensures gl.Snapshot() == old(gl.Snapshot()).(error := NO_ERROR)
    ensures r.Ok? ==> gl.calls == old(gl.calls) + [Call.GetError]
    ensures r.Err? ==> gl.calls == old(gl.calls) + [Call.GetError, Call.GetError]
  {
    var _ := gl.GetError();
    var failure: Option<nat> := None;
    if vertex.StageFailed? {
      failure := Some(vertex.code);
    } else if fragment.StageFailed? {
      failure := Some(fragment.code);
    } else if geometry.Some? && geometry.value.StageFailed? {
      failure := Some(geometry.value.code);
    } else if link.LinkFailed? {
      failure := Some(link.code);
    }
    if failure.Some? {
      gl.RaiseError(failure.value);
      var code := gl.GetError();
      return Err(GlError(code));
    }
    var refl := link.reflection;
    var uniforms := BuildCatalog(refl.uniforms, refl.uniformLocations);
    var attribs := BuildCatalog(refl.attributes, refl.attribLocations);
    return Ok(Program(gl, link.id, uniforms, attribs));
  }
}
