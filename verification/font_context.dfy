/** The font-group and font-instance caching of
    src/components/gfx/font_context.rs. Font construction and the platform
    font list are outside this model: they come in as function parameters. */
module FontContext {
  import opened Common
  import Cache
  import opened Strings

  /** A font instance, made by platform code outside this model. */
  type Font

  /** A font style, the key of the font-group cache. The point size, a float,
      is a real here, so two styles differing only in size are different keys.
      `families` is the comma-separated family list. */
  datatype FontStyle = FontStyle(ptSize: real, weight: nat, italic: bool, oblique: bool, families: string)

  datatype FontDescriptor = FontDescriptor(style: FontStyle, identifier: string)

  datatype FontGroup = FontGroup(families: string, style: FontStyle, fonts: seq<Font>)

  /** `Result<@mut Font, ()>`. */
  datatype FontResult = Ok(font: Font) | Err

  // ---------------------------------------------------------------------
  // The font context's own copy of LRUCache

  /** The second `LRUCache`: `insert` returns the inserted value and
      `lookup_or_insert` combines lookup and insert. Its entries change as
      `Cache.Inserted` and `Cache.MoveToBack` describe. */
  class LRUCache<K(==), V> {
    var entries: seq<(K, V)>
    var cacheSize: nat

    ghost predicate Valid()
      reads this
    {
      |entries| <= cacheSize
    }

    constructor (cacheSize: nat)
      ensures Valid() && entries == [] && this.cacheSize == cacheSize
    {
      entries := [];
      this.cacheSize := cacheSize;
    }

    /** A hit returns the value of the first entry for `key` and moves it to
        the back; a miss changes nothing. */
    method Lookup(key: K) returns (r: Option<V>)
      requires Valid()
      modifies this
      ensures Valid() && cacheSize == old(cacheSize)
      ensures match Cache.Position(old(entries), key)
        case Some(p) => r == Some(old(entries)[p].1) && entries == Cache.MoveToBack(old(entries), p)
        case None => r.None? && entries == old(entries)
    {
      match Cache.Position(entries, key) {
        case Some(pos) =>
          var v := Touch(pos);
          r := Some(v);
        case None =>
          r := None;
      }
    }

    /** A hit returns the cached value; a miss inserts `f(key)` and returns
        it. */
    method LookupOrInsert(key: K, f: K -> V) returns (r: Outcome<V>)
      requires Valid()
      modifies this
      ensures Valid() && cacheSize == old(cacheSize)
      ensures match Cache.Position(old(entries), key)
        case Some(p) => r == Done(old(entries)[p].1) && entries == Cache.MoveToBack(old(entries), p)
        case None =>
          if old(cacheSize) == 0 then r.Fail? && entries == old(entries)
          else r == Done(f(key)) && entries == Cache.Inserted(old(entries), cacheSize, key, f(key))
    {
      match Cache.Position(entries, key) {
        case Some(pos) =>
          var v := Touch(pos);
          r := Done(v);
        case None =>
          r := Insert(key, f(key));
      }
    }

    /** Pushes `(key, val)` at the back, evicting the front entry when full,
        and returns `val`. With a capacity of zero the task fails. */
    method Insert(key: K, val: V) returns (r: Outcome<V>)
      requires Valid()
      modifies this
      ensures Valid() && cacheSize == old(cacheSize)
      ensures old(cacheSize) == 0 ==> r.Fail? && entries == old(entries)
      ensures old(cacheSize) > 0 ==> r == Done(val) && entries == Cache.Inserted(old(entries), cacheSize, key, val)
    {
      if |entries| == cacheSize {
        if entries == [] {
          r := Fail("remove(0) on an empty vector");
          return;
        }
        entries := entries[1..];
      }
      entries := entries + [(key, val)];
      r := Done(val);
    }

    /** Moves the entry at `pos` to the back; the guard `pos != cacheSize`
        always holds because `pos < |entries| <= cacheSize`. */
    method Touch(pos: nat) returns (v: V)
      requires Valid() && pos < |entries|
      modifies this
      ensures Valid() && cacheSize == old(cacheSize)
      ensures v == old(entries)[pos].1 && entries == Cache.MoveToBack(old(entries), pos)
    {
      var (key, val) := entries[pos];
      if pos != cacheSize {
        entries := entries[..pos] + entries[pos + 1..];
        entries := entries + [(key, val)];
      } else {
        assert false;
      }
      v := val;
    }
  }

  // ---------------------------------------------------------------------
  // Family names

  /** The generic family table built by `FontContext::new`; nothing changes it
      afterwards. */
  const GenericFonts: map<string, string> :=
    map["serif" := "Times New Roman", "sans-serif" := "Arial", "cursive" := "Apple Chancery",
        "fantasy" := "Papyrus", "monospace" := "Menlo"]

  /** `transform_family`: a generic family name becomes its fixed family;
      every other name is returned unchanged. */
  function TransformFamily(family: string): (r: string)
    ensures family == "serif" ==> r == "Times New Roman"
    ensures family == "sans-serif" ==> r == "Arial"
    ensures family == "cursive" ==> r == "Apple Chancery"
    ensures family == "fantasy" ==> r == "Papyrus"
    ensures family == "monospace" ==> r == "Menlo"
    ensures family !in {"serif", "sans-serif", "cursive", "fantasy", "monospace"} ==> r == family
  {
    if family in GenericFonts then GenericFonts[family] else family
  }

  /** No generic name maps to another generic name, so transforming twice is
      transforming once. */
  lemma TransformFamilyIdempotent(family: string)
    ensures TransformFamily(TransformFamily(family)) == TransformFamily(family)
  {
  }

  // ---------------------------------------------------------------------
  // Font groups

  /** The name the font list is asked for, for one entry of the family
      list: the entry is trimmed, then a generic name is replaced by its
      family. */
  function FamilyName(family: string): string {
    TransformFamily(Trim(family))
  }

  /** `FamilyName` of each entry of the family list. */
  function FamilyNames(families: seq<string>): seq<string> {
    seq(|families|, i requires 0 <= i < |families| => FamilyName(families[i]))
  }

  /** The fonts the font list holds for the families `names`, in order. */
  function GroupFonts(names: seq<string>, style: FontStyle, fontsInFamily: (string, FontStyle) -> seq<Font>): seq<Font> {
    if names == [] then []
    else
      GroupFonts(names[..|names| - 1], style, fontsInFamily) + fontsInFamily(names[|names| - 1], style)
  }

  /** The families are visited in order: the fonts of a concatenated list are
      the fonts of its first part followed by those of its second. */
  lemma {:induction false} GroupFontsAppend(a: seq<string>, b: seq<string>, style: FontStyle,
                                            fontsInFamily: (string, FontStyle) -> seq<Font>)
    ensures GroupFonts(a + b, style, fontsInFamily) == GroupFonts(a, style, fontsInFamily) + GroupFonts(b, style, fontsInFamily)
    decreases |b|
  {
    if b == [] {
      assert a + b == a;
    } else {
      var b' := b[..|b| - 1];
      assert (a + b)[..|a + b| - 1] == a + b';
      assert (a + b)[|a + b| - 1] == b[|b| - 1];
      GroupFontsAppend(a, b', style, fontsInFamily);
    }
  }

  /** A group is empty exactly when the font list has no font for any of
      its families. */
  lemma {:induction false} GroupFontsEmpty(names: seq<string>, style: FontStyle,
                                           fontsInFamily: (string, FontStyle) -> seq<Font>)
    ensures GroupFonts(names, style, fontsInFamily) == [] <==>
      forall name :: name in names ==> fontsInFamily(name, style) == []
    decreases |names|
  {
    if names != [] {
      var init := names[..|names| - 1];
      GroupFontsEmpty(init, style, fontsInFamily);
      assert names == init + [names[|names| - 1]];
    }
  }

  /** `dummy_style`. The family list is the string "serif, sans-serif",
      written as its two comma-separated parts. */
  function DummyStyle(): FontStyle {
    FontStyle(20.0, 300, false, false, "serif" + [','] + " sans-serif")
  }

  /** The family list of `dummy_style` has two entries, the second with a
      leading space. */
  lemma DummyStyleSplit()
    ensures SplitChar(DummyStyle().families, ',') == ["serif", " sans-serif"]
  {
    var a, b := "serif", " sans-serif";
    assert ',' !in a by {
      assert forall i :: 0 <= i < |a| ==> a[i] != ',';
    }
    assert ',' !in b by {
      assert forall i :: 0 <= i < |b| ==> b[i] != ',';
    }
    SplitCharAt(a, b, ',');
    SplitCharNoSep(b, ',');
  }

  /** The entries of that list resolve to Times New Roman and Arial: the
      space before the second is trimmed away. */
  lemma DummyStyleEntries()
    ensures FamilyName("serif") == "Times New Roman"
    ensures FamilyName(" sans-serif") == "Arial"
  {
    TrimUnpadded("serif");
    var name := " sans-serif";
    assert LeadingWhitespace(name) == 1 by {
      assert name[1..] == "sans-serif";
      assert LeadingWhitespace(name[1..]) == 0;
    }
    assert TrailingWhitespace(name) == 0;
    assert Trim(name) == name[1..];
  }

  /** The family list of `dummy_style`, "serif, sans-serif", names Times New
      Roman and then Arial. */
  lemma DummyStyleFamilyNames()
    ensures FamilyNames(SplitChar(DummyStyle().families, ',')) == ["Times New Roman", "Arial"]
  {
    DummyStyleSplit();
    DummyStyleEntries();
    FamilyNamesOfPair("serif", " sans-serif");
  }

  /** `FamilyNames` of a two-entry list. */
  lemma FamilyNamesOfPair(a: string, b: string)
    ensures FamilyNames([a, b]) == [FamilyName(a), FamilyName(b)]
  {
  }

  /** For `dummy_style` the font list is asked for Times New Roman and then
      for Arial, and the group holds what it answers, in that order. */
  lemma DummyStyleFonts(fontsInFamily: (string, FontStyle) -> seq<Font>)
    ensures GroupFonts(FamilyNames(SplitChar(DummyStyle().families, ',')), DummyStyle(), fontsInFamily)
         == fontsInFamily("Times New Roman", DummyStyle()) + fontsInFamily("Arial", DummyStyle())
  {
    var style := DummyStyle();
    var names := ["Times New Roman", "Arial"];
    DummyStyleFamilyNames();
    assert GroupFonts(names[..1], style, fontsInFamily) == fontsInFamily("Times New Roman", style) by {
      assert names[..1][..0] == [];
    }
  }

  /** The group `create_font_group` builds for `style`: it fails without a
      font list and, through its `assert!`, exactly when no family of the list
      yields a font; otherwise the group holds the style, its family list and
      at least one font. */
  function FontGroupFor(style: FontStyle, hasFontList: bool, fontsInFamily: (string, FontStyle) -> seq<Font>): (r: Outcome<FontGroup>)
    ensures !hasFontList ==> r.Fail?
    ensures r.Done? ==> r.value.families == style.families && r.value.style == style && |r.value.fonts| > 0
    ensures hasFontList ==>
      (r.Fail? <==> forall name :: name in FamilyNames(SplitChar(style.families, ',')) ==> fontsInFamily(name, style) == [])
  {
    GroupFontsEmpty(FamilyNames(SplitChar(style.families, ',')), style, fontsInFamily);
    if !hasFontList then Fail("no font list")
    else
      var fonts := GroupFonts(FamilyNames(SplitChar(style.families, ',')), style, fontsInFamily);
      if |fonts| == 0 then Fail("assertion failed: fonts.len() > 0")
      else Done(FontGroup(style.families, style, fonts))
  }

  // ---------------------------------------------------------------------
  // The context

  /** The font context's caches: a single-slot cache of font instances by
      descriptor and a five-entry LRU cache of font groups by style. */
  class FontContext {
    var instanceCache: Cache.MonoCache<FontDescriptor, Font>
    var fontGroups: LRUCache<FontStyle, FontGroup>
    var hasFontList: bool

    ghost predicate Valid()
      reads this, fontGroups
    {
      fontGroups.Valid() && fontGroups.cacheSize == 5 && Cache.DistinctKeys(fontGroups.entries)
    }

    constructor (needsFontList: bool)
      ensures Valid() && fresh(instanceCache) && fresh(fontGroups)
      ensures instanceCache.entry == None && fontGroups.entries == [] && hasFontList == needsFontList
    {
      instanceCache := new Cache.MonoCache<FontDescriptor, Font>(10);
      fontGroups := new LRUCache<FontStyle, FontGroup>(5);
      hasFontList := needsFontList;
    }

    /** `create_font_group`: visits the comma-separated, trimmed family names
        in order, collecting the fonts found for each transformed name; fails
        without a font list or when no font is found. */
    method CreateFontGroup(style: FontStyle, fontsInFamily: (string, FontStyle) -> seq<Font>) returns (r: Outcome<FontGroup>)
      ensures r == FontGroupFor(style, hasFontList, fontsInFamily)
    {
      var families := SplitChar(style.families, ',');
      var fonts: seq<Font> := [];
      var i := 0;
      while i < |families|
        invariant 0 <= i <= |families|
        invariant fonts == GroupFonts(FamilyNames(families)[..i], style, fontsInFamily)
        invariant i > 0 ==> hasFontList
      {
        var familyName := Trim(families[i]);
        var transformed := TransformFamily(familyName);
        if !hasFontList {
          r := Fail("no font list");
          return;
        }
        fonts := fonts + fontsInFamily(transformed, style);
        assert FamilyNames(families)[..i + 1][..i] == FamilyNames(families)[..i];
        i := i + 1;
      }
      assert FamilyNames(families)[..i] == FamilyNames(families);
      if |fonts| == 0 {
        r := Fail("assertion failed: fonts.len() > 0");
        return;
      }
      r := Done(FontGroup(style.families, style, fonts));
    }

    /** `get_resolved_font_for_style`: a cached group is returned (and moved to
        the back); otherwise a new group is created, cached and returned. */
    method GetResolvedFontForStyle(style: FontStyle, fontsInFamily: (string, FontStyle) -> seq<Font>)
      returns (r: Outcome<FontGroup>)
      requires Valid()
      modifies fontGroups
      ensures Valid()
      ensures match Cache.Position(old(fontGroups.entries), style)
        case Some(p) =>
          r == Done(old(fontGroups.entries)[p].1)
          && fontGroups.entries == Cache.MoveToBack(old(fontGroups.entries), p)
        case None =>
          r == FontGroupFor(style, hasFontList, fontsInFamily)
          && fontGroups.entries ==
               if r.Done? then Cache.Inserted(old(fontGroups.entries), 5, style, r.value) else old(fontGroups.entries)
    {
      ghost var before := fontGroups.entries;
      var cached := fontGroups.Lookup(style);
      match cached {
        case Some(fg) =>
          Cache.MoveToBackKeepsKeysDistinct(before, Cache.Position(before, style).value);
          r := Done(fg);
        case None =>
          var fg := CreateFontGroup(style, fontsInFamily);
          if fg.Fail? {
            r := fg;
            return;
          }
          r := fontGroups.Insert(style, fg.value);
          Cache.InsertMissKeepsKeysDistinct(before, 5, style, fg.value);
      }
    }

    /** `get_font_by_descriptor`: a cached instance is returned; otherwise the
        instance is created and cached only when creation succeeds. */
    method GetFontByDescriptor(desc: FontDescriptor, createInstance: FontDescriptor -> FontResult) returns (r: FontResult)
      modifies instanceCache
      ensures var hit := old(instanceCache.entry).Some? && old(instanceCache.entry).value.0 == desc;
        && (hit ==> r == Ok(old(instanceCache.entry).value.1) && instanceCache.entry == old(instanceCache.entry))
        && (!hit ==> r == createInstance(desc))
        && (!hit && r.Ok? ==> instanceCache.entry == Some((desc, r.font)))
        && (!hit && r.Err? ==> instanceCache.entry == old(instanceCache.entry))
    {
      var cached := instanceCache.Find(desc);
      match cached {
        case Some(f) =>
          r := Ok(f);
        case None =>
          r := createInstance(desc);
          if r.Ok? {
            instanceCache.Insert(desc, r.font);
          }
      }
    }
  }

  /** A group cached for a style is the one handed back by the next request
      for that style, which creates nothing: the policy "a miss creates and
      caches, a hit returns the cached value". */
  method ResolveTwice(context: FontContext, style: FontStyle, fontsInFamily: (string, FontStyle) -> seq<Font>)
    returns (first: Outcome<FontGroup>, second: Outcome<FontGroup>)
    requires context.Valid()
    modifies context.fontGroups
    ensures first.Done? ==> second == first
  {
    ghost var before := context.fontGroups.entries;
    first := context.GetResolvedFontForStyle(style, fontsInFamily);
    match Cache.Position(before, style) {
      case Some(p) =>
        Cache.LookupAfterTouch(before, style);
      case None =>
        if first.Done? {
          Cache.LookupAfterInsertMiss(before, 5, style, first.value);
        }
    }
    second := context.GetResolvedFontForStyle(style, fontsInFamily);
  }
}
