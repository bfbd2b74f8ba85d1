/**
  * The font registry of the GUI context (lib.rs): `FontInfo` and its glyph
  * range builder, the list of fonts with the ids `add_font` and `merge_font`
  * hand out, and the `pending_atlas` flag that gates `update_atlas`.
  *
  * The native font atlas is modelled by what it was last built from: one
  * `AtlasFont` per `ImFontAtlas_AddFontFromMemoryTTF` call.
  */
module Fonts {
  import opened Wrappers

  /** A glyph range `[from, to]` of `ImWchar` code points; `(0, 0)` terminates a list. */
  type GlyphRange = (nat, nat)

  /** The id `add_font` returns (`FontId`), the index of the font in the native atlas. */
  datatype FontId = FontId(index: nat)

  /** `FontInfo`: the TTF bytes, the size, the glyph ranges, the merge flag and the id. */
  datatype FontInfo = FontInfo(ttf: seq<bv8>, size: real, charRanges: seq<GlyphRange>, merge: bool, id: nat)

  /** The list ends with the `(0, 0)` terminator the native atlas expects. */
  predicate Terminated(ranges: seq<GlyphRange>)
  {
    |ranges| > 0 && ranges[|ranges| - 1] == (0, 0)
  }

  /** `FontInfo::new`: no glyph ranges yet, only the terminator; not merged, id 0. */
  function NewFont(ttf: seq<bv8>, size: real): (f: FontInfo)
    ensures Terminated(f.charRanges) && |f.charRanges| == 1
  {
    FontInfo(ttf, size, [(0, 0)], false, 0)
  }

  /**
    * `FontInfo::char_range`: the last entry (the terminator) becomes
    * `[from, to]` and a new terminator is pushed. `last_mut().unwrap()` panics
    * on an empty list, hence the precondition.
    */
  function CharRange(f: FontInfo, from: nat, to: nat): (r: FontInfo)
    requires f.charRanges != []
    ensures |r.charRanges| == |f.charRanges| + 1 && Terminated(r.charRanges)
    ensures r.charRanges[|f.charRanges| - 1] == (from, to)
    ensures r.charRanges[..|f.charRanges| - 1] == f.charRanges[..|f.charRanges| - 1]
    ensures r.ttf == f.ttf && r.size == f.size && r.merge == f.merge && r.id == f.id
  {
    f.(charRanges := f.charRanges[..|f.charRanges| - 1] + [(from, to), (0, 0)])
  }

  /** `char_range` applied once per entry of `pairs`, in order. */
  function WithRanges(f: FontInfo, pairs: seq<GlyphRange>): (r: FontInfo)
    requires f.charRanges != []
    ensures |r.charRanges| == |f.charRanges| + |pairs|
  {
    if pairs == [] then f
    else
      var last := pairs[|pairs| - 1];
      CharRange(WithRanges(f, pairs[..|pairs| - 1]), last.0, last.1)
  }

  /**
    * A chain of `char_range` calls on a new font yields exactly the ranges
    * given, in order, followed by the terminator.
    */
  lemma {:induction false} BuilderRanges(ttf: seq<bv8>, size: real, pairs: seq<GlyphRange>)
    ensures WithRanges(NewFont(ttf, size), pairs).charRanges == pairs + [(0, 0)]
    ensures var f := WithRanges(NewFont(ttf, size), pairs); f.ttf == ttf && f.size == size && !f.merge && f.id == 0
  {
    if pairs != [] {
      var init, last := pairs[..|pairs| - 1], pairs[|pairs| - 1];
      BuilderRanges(ttf, size, init);
      var g := WithRanges(NewFont(ttf, size), init);
      var r := g.charRanges[..|g.charRanges| - 1] + [(last.0, last.1), (0, 0)];
      assert WithRanges(NewFont(ttf, size), pairs) == g.(charRanges := r);
      assert g.charRanges[..|g.charRanges| - 1] == init;
      RangesStep(init, last);
    }
  }

  lemma RangesStep(init: seq<GlyphRange>, last: GlyphRange)
    ensures init + [(last.0, last.1), (0, 0)] == (init + [last]) + [(0, 0)]
  {
  }

  /** What one `ImFontAtlas_AddFontFromMemoryTTF` call receives. */
  datatype AtlasFont = AtlasFont(ttf: seq<bv8>, sizePixels: real, merge: bool, glyphRanges: Option<seq<GlyphRange>>)

  /**
    * The atlas entry `update_atlas` adds for a font: size scaled by the
    * framebuffer scale, the merge mode, and a glyph-range pointer only when
    * the font has a range besides the terminator (null otherwise).
    */
  function AtlasEntry(f: FontInfo, scale: real): AtlasFont
  {
    AtlasFont(f.ttf, f.size * scale, f.merge, if |f.charRanges| > 1 then Some(f.charRanges) else None)
  }

  /**
    * For a font built with `new` and `char_range`, the atlas gets glyph
    * ranges exactly when at least one range was set, and then it gets those
    * ranges in order, zero-terminated.
    */
  lemma GlyphRangesOnlyWhenSet(ttf: seq<bv8>, size: real, pairs: seq<GlyphRange>, scale: real)
    ensures var e := AtlasEntry(WithRanges(NewFont(ttf, size), pairs), scale);
      (e.glyphRanges.Some? <==> pairs != []) &&
      (e.glyphRanges.Some? ==> e.glyphRanges.value == pairs + [(0, 0)] && Terminated(e.glyphRanges.value)) &&
      !e.merge && e.ttf == ttf && e.sizePixels == size * scale
  {
    BuilderRanges(ttf, size, pairs);
    var f := WithRanges(NewFont(ttf, size), pairs);
    assert |f.charRanges| > 1 <==> pairs != [];
    assert AtlasEntry(f, scale) == AtlasFont(ttf, size * scale, false, if pairs != [] then Some(pairs + [(0, 0)]) else None);
  }

  /** The atlas `update_atlas` builds: one entry per font, in list order. */
  function AtlasFonts(fonts: seq<FontInfo>, scale: real): (r: seq<AtlasFont>)
    ensures |r| == |fonts|
  {
    if fonts == [] then []
    else AtlasFonts(fonts[..|fonts| - 1], scale) + [AtlasEntry(fonts[|fonts| - 1], scale)]
  }

  lemma {:induction false} AtlasFontsAt(fonts: seq<FontInfo>, scale: real, i: nat)
    requires i < |fonts|
    ensures AtlasFonts(fonts, scale)[i] == AtlasEntry(fonts[i], scale)
  {
    if i < |fonts| - 1 {
      AtlasFontsAt(fonts[..|fonts| - 1], scale, i);
    }
  }

  /**
    * In the atlas built from a font list, font `i` passes its glyph ranges
    * exactly when it has one besides the terminator (and null otherwise),
    * with its own merge mode.
    */
  lemma AtlasGlyphRanges(fonts: seq<FontInfo>, scale: real, i: nat)
    requires i < |fonts|
    ensures var e := AtlasFonts(fonts, scale)[i];
      (e.glyphRanges.Some? <==> |fonts[i].charRanges| > 1) &&
      (e.glyphRanges.Some? ==> e.glyphRanges.value == fonts[i].charRanges) &&
      e.merge == fonts[i].merge && e.ttf == fonts[i].ttf
  {
    AtlasFontsAt(fonts, scale, i);
  }

  /** The id `add_font` gives the next font: 0 for the first, otherwise one past the last. */
  function NextId(fonts: seq<FontInfo>): nat
  {
    if fonts == [] then 0 else fonts[|fonts| - 1].id + 1
  }

  /**
    * The ids of the font list: the first is 0, and each next font either
    * gets a new id one past its predecessor's or is merged into it and
    * shares its id.
    */
  ghost predicate IdsChained(fonts: seq<FontInfo>)
  {
    fonts == [] ||
    (IdsChained(fonts[..|fonts| - 1]) &&
     var f := fonts[|fonts| - 1];
     if |fonts| == 1 then f.id == 0
     else var prev := fonts[|fonts| - 2].id; f.id == prev + 1 || (f.merge && f.id == prev))
  }

  lemma IdsChainedExtend(fonts: seq<FontInfo>, f: FontInfo)
    requires IdsChained(fonts)
    requires f.id == NextId(fonts) || (fonts != [] && f.merge && f.id == fonts[|fonts| - 1].id)
    ensures IdsChained(fonts + [f])
  {
    assert (fonts + [f])[..|fonts|] == fonts;
  }

  /** Every font of a chained list has an id below the next one: `add_font` never reuses an id. */
  lemma {:induction false} IdsBelowNext(fonts: seq<FontInfo>)
    requires IdsChained(fonts)
    ensures forall i :: 0 <= i < |fonts| ==> fonts[i].id < NextId(fonts)
  {
    if fonts != [] {
      var init := fonts[..|fonts| - 1];
      IdsBelowNext(init);
      assert forall i :: 0 <= i < |init| ==> fonts[i] == init[i];
      assert init != [] ==> NextId(init) == fonts[|fonts| - 2].id + 1;
    }
  }

  /** The font part of the GUI `Context`. */
  class Context {
    /** The atlas must be rebuilt before the next frame. */
    var pendingAtlas: bool
    var fonts: seq<FontInfo>
    /** `io.DisplayFramebufferScale.x`, as `set_size` last set it. */
    var framebufferScale: real
    /** The fonts the native atlas was last built from. */
    var atlas: seq<AtlasFont>

    ghost predicate Valid()
      reads this
    {
      IdsChained(fonts)
    }

    /** `Context::new`: no fonts yet and an atlas build pending. */
    constructor ()
      ensures Valid()
      ensures pendingAtlas && fonts == [] && atlas == [] && framebufferScale == 1.0
    {
      pendingAtlas, fonts, framebufferScale, atlas := true, [], 1.0, [];
    }

    /** `set_size`, as far as fonts go: records the scale and requests a rebuild. */
    method SetSize(scale: real)
      requires Valid()
      modifies this
      ensures Valid()
      ensures pendingAtlas && framebufferScale == scale
      ensures fonts == old(fonts) && atlas == old(atlas)
    {
      pendingAtlas := true;
      framebufferScale := scale;
    }

    /**
      * `add_font`: the font gets id 0 in an empty list and the last font's
      * id plus one otherwise, is appended, and a rebuild is requested.
      */
    method AddFont(font: FontInfo) returns (id: FontId)
      requires Valid()
      modifies this
      ensures Valid()
      ensures id.index == NextId(old(fonts))
      ensures fonts == old(fonts) + [font.(id := id.index)]
      ensures forall i :: 0 <= i < |old(fonts)| ==> old(fonts)[i].id < id.index
      ensures pendingAtlas && framebufferScale == old(framebufferScale) && atlas == old(atlas)
    {
      pendingAtlas := true;
      var n := NextId(fonts);
      IdsBelowNext(fonts);
      IdsChainedExtend(fonts, font.(id := n));
      fonts := fonts + [font.(id := n)];
      return FontId(n);
    }

    /**
      * `merge_font`: the font is marked as merged into the last font, takes
      * its id, and is appended; a rebuild is requested. The source panics
      * when there is no font to merge into.
      */
    method MergeFont(font: FontInfo)
      requires Valid() && fonts != []
      modifies this
      ensures Valid()
      ensures fonts == old(fonts) + [font.(merge := true, id := old(fonts)[|old(fonts)| - 1].id)]
      ensures pendingAtlas && framebufferScale == old(framebufferScale) && atlas == old(atlas)
    {
      pendingAtlas := true;
      var f := font.(merge := true, id := fonts[|fonts| - 1].id);
      IdsChainedExtend(fonts, f);
      fonts := fonts + [f];
    }

    /**
      * `update_atlas`: takes the pending flag; when it was clear, does
      * nothing and returns false, otherwise clears the atlas, adds every font
      * in list order and returns true.
      */
    method UpdateAtlas() returns (rebuilt: bool)
      requires Valid()
      modifies this
      ensures Valid()
      ensures rebuilt == old(pendingAtlas) && !pendingAtlas
      ensures fonts == old(fonts) && framebufferScale == old(framebufferScale)
      ensures atlas == if rebuilt then AtlasFonts(fonts, framebufferScale) else old(atlas)
    {
      var pending := pendingAtlas;
      pendingAtlas := false;
      if !pending {
        return false;
      }
      atlas := [];
      var i := 0;
      while i < |fonts|
        invariant 0 <= i <= |fonts|
        invariant atlas == AtlasFonts(fonts[..i], framebufferScale)
        invariant !pendingAtlas && fonts == old(fonts) && framebufferScale == old(framebufferScale)
      {
        assert fonts[..i + 1][..i] == fonts[..i];
        atlas := atlas + [AtlasEntry(fonts[i], framebufferScale)];
        i := i + 1;
      }
      assert fonts[..i] == fonts;
      return true;
    }
  }
}
