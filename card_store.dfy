/**
 * The card cache of the desktop app (src/swu_search_app/main.py): which fields
 * a stored card keeps, how cards saved in the older wrapped layout are
 * migrated, how the file of a card is found, how every scanned folder is merged
 * into one list, and the record a scan leaves behind. The cache is the JSON
 * value `appData.json` holds; reading and writing that file, and the clock, are
 * parameters of the model.
 */
module CardStore {
  import opened Wrappers
  import opened Json
  import CardClassifier

  /**
   * The fields a stored card keeps. The app holds them in a set, whose
   * iteration order Python leaves open; a normalised card lists its keys in
   * the order of this sequence.
   */
  const AllowedFields: seq<string> :=
    ["file_path", "pdf_path", "page_index", "size_bytes", "modified_ts", "scanned_text"]

  predicate NoDup(xs: seq<string>)
  {
    forall i, j :: 0 <= i < j < |xs| ==> xs[i] != xs[j]
  }

  // ---------------------------------------------------------------------------
  // Normalising a card
  // ---------------------------------------------------------------------------

  /** The dict comprehension over `allowed`: each allowed key the card has, with its value. */
  function Project(fields: seq<Field>, allowed: seq<string>): (r: seq<Field>)
    ensures forall j :: 0 <= j < |r| ==> r[j].key in allowed && Get(fields, r[j].key) == Some(r[j].val)
    ensures forall k :: k in allowed && HasKey(fields, k) ==> HasKey(r, k)
  {
    if allowed == [] then []
    else
      var rest := Project(fields, allowed[1..]);
      assert forall k :: k in allowed ==> k == allowed[0] || k in allowed[1..];
      match Get(fields, allowed[0])
      case None => rest
      case Some(v) =>
        var r := [Field(allowed[0], v)] + rest;
        assert forall j :: 1 <= j < |r| ==> r[j] == rest[j - 1];
        assert r[0].key == allowed[0];
        assert forall k :: HasKey(rest, k) ==> HasKey(r, k) by {
          forall k | HasKey(rest, k) ensures HasKey(r, k) {
            var j :| 0 <= j < |rest| && rest[j].key == k;
            assert r[j + 1].key == k;
          }
        }
        r
  }

  /** A card in the legacy layout: a single key, not an allowed field, holding the card's dict. */
  predicate Wrapped(fields: seq<Field>, allowed: seq<string>)
  {
    |fields| == 1 && fields[0].key !in allowed && fields[0].val.Object?
  }

  /** The dict that is projected: the inner one of a legacy card, the card itself otherwise. */
  function Unwrapped(fields: seq<Field>, allowed: seq<string>): seq<Field>
  {
    if Wrapped(fields, allowed) then fields[0].val.fields else fields
  }

  /** `_normalize_card`: the allowed fields of the (unwrapped) card; `{}` for anything but a dict. */
  function Normalize(card: Value, allowed: seq<string>): (r: seq<Field>)
    ensures forall j :: 0 <= j < |r| ==> r[j].key in allowed
  {
    if card.Object? then Project(Unwrapped(card.fields, allowed), allowed) else []
  }

  /** A projection reads every allowed key as the source dict does. */
  lemma ProjectGet(fields: seq<Field>, allowed: seq<string>, k: string)
    requires k in allowed
    ensures Get(Project(fields, allowed), k) == Get(fields, k)
  {
    var r := Project(fields, allowed);
    if HasKey(r, k) {
      var w := Get(r, k).value;
      var i :| 0 <= i < |r| && r[i] == Field(k, w);
      assert Get(fields, r[i].key) == Some(r[i].val);
    }
  }

  /** Two dicts that agree on the allowed keys project to the same dict. */
  lemma {:induction false} ProjectAgree(f: seq<Field>, g: seq<Field>, allowed: seq<string>)
    requires forall k :: k in allowed ==> Get(f, k) == Get(g, k)
    ensures Project(f, allowed) == Project(g, allowed)
  {
    if allowed != [] {
      assert allowed[0] in allowed;
      assert forall k :: k in allowed[1..] ==> k in allowed;
      ProjectAgree(f, g, allowed[1..]);
    }
  }

  /** The empty dict projects to the empty dict. */
  lemma {:induction false} ProjectOfEmpty(allowed: seq<string>)
    ensures Project([], allowed) == []
  {
    if allowed != [] {
      ProjectOfEmpty(allowed[1..]);
    }
  }

  /** Projecting twice is projecting once. */
  lemma ProjectTwice(fields: seq<Field>, allowed: seq<string>)
    ensures Project(Project(fields, allowed), allowed) == Project(fields, allowed)
  {
    forall k | k in allowed
      ensures Get(Project(fields, allowed), k) == Get(fields, k)
    {
      ProjectGet(fields, allowed, k);
    }
    ProjectAgree(Project(fields, allowed), fields, allowed);
  }

  /** With distinct allowed names a projection has distinct keys. */
  lemma {:induction false} ProjectDistinct(fields: seq<Field>, allowed: seq<string>)
    requires NoDup(allowed)
    ensures DistinctKeys(Project(fields, allowed))
  {
    if allowed != [] {
      var rest := Project(fields, allowed[1..]);
      assert NoDup(allowed[1..]) by {
        assert forall i :: 0 <= i < |allowed[1..]| ==> allowed[1..][i] == allowed[i + 1];
      }
      ProjectDistinct(fields, allowed[1..]);
      assert allowed[0] !in allowed[1..] by {
        assert forall i :: 0 <= i < |allowed[1..]| ==> allowed[1..][i] == allowed[i + 1];
      }
    }
  }

  /**
   * The keys of a normalised card: an allowed key is present exactly when the
   * unwrapped card has it, with its value there; no other key is present. A
   * legacy card reads through to its inner dict, and anything but a dict
   * becomes the empty dict.
   */
  lemma NormalizeGet(card: Value, allowed: seq<string>, k: string)
    ensures !card.Object? ==> Normalize(card, allowed) == []
    ensures card.Object? ==>
      (Get(Normalize(card, allowed), k) == if k in allowed then Get(Unwrapped(card.fields, allowed), k) else None)
    ensures card.Object? && Wrapped(card.fields, allowed) ==>
      (Get(Normalize(card, allowed), k) == if k in allowed then Get(card.fields[0].val.fields, k) else None)
  {
    if card.Object? && k in allowed {
      ProjectGet(Unwrapped(card.fields, allowed), allowed, k);
    }
  }

  /** Normalising a normalised card changes nothing. */
  lemma NormalizeTwice(card: Value, allowed: seq<string>)
    ensures Normalize(Object(Normalize(card, allowed)), allowed) == Normalize(card, allowed)
  {
    var r := Normalize(card, allowed);
    if |r| == 1 {
      assert r[0].key in allowed;
    }
    assert !Wrapped(r, allowed);
    assert Unwrapped(r, allowed) == r;
    assert Normalize(Object(r), allowed) == Project(r, allowed);
    if card.Object? {
      var u := Unwrapped(card.fields, allowed);
      assert r == Project(u, allowed);
      ProjectTwice(u, allowed);
    } else {
      ProjectOfEmpty(allowed);
    }
  }

  /** With distinct allowed names a normalised card has distinct keys. */
  lemma NormalizeDistinct(card: Value, allowed: seq<string>)
    requires NoDup(allowed)
    ensures DistinctKeys(Normalize(card, allowed))
  {
    if card.Object? {
      ProjectDistinct(Unwrapped(card.fields, allowed), allowed);
    }
  }

  // ---------------------------------------------------------------------------
  // Comparing a card with its normalised form
  // ---------------------------------------------------------------------------

  /**
   * Python's `==` on two dicts whose values are the very same objects: each
   * key of one is a key of the other, with the same value.
   */
  predicate SameDict(a: seq<Field>, b: seq<Field>)
  {
    && (forall i :: 0 <= i < |a| ==> Get(b, a[i].key) == Some(a[i].val))
    && (forall j :: 0 <= j < |b| ==> HasKey(a, b[j].key))
  }

  /** `raw == normalised` for one card: the raw card is a dict equal to it. */
  predicate SameCard(raw: Value, norm: seq<Field>)
  {
    raw.Object? && SameDict(raw.fields, norm)
  }

  /** Every key of the dict is an allowed field. */
  predicate OnlyAllowed(fields: seq<Field>, allowed: seq<string>)
  {
    forall i :: 0 <= i < |fields| ==> fields[i].key in allowed
  }

  /**
   * A card equals its normalised form exactly when it is a dict whose every
   * key is allowed: a legacy wrapper, an extra key or a value that is not a
   * dict all make the form differ.
   */
  lemma SameCardIff(card: Value, allowed: seq<string>)
    requires card.Object? ==> DistinctKeys(card.fields)
    ensures SameCard(card, Normalize(card, allowed)) <==> card.Object? && OnlyAllowed(card.fields, allowed)
  {
    if card.Object? {
      var f := card.fields;
      var r := Normalize(card, allowed);
      if SameCard(card, r) {
        forall i | 0 <= i < |f| ensures f[i].key in allowed {
          assert Get(r, f[i].key).Some?;
          var j :| 0 <= j < |r| && r[j].key == f[i].key;
        }
      }
      if OnlyAllowed(f, allowed) {
        if |f| == 1 {
          assert f[0].key in allowed;
        }
        assert r == Project(f, allowed);
        forall i | 0 <= i < |f| ensures Get(r, f[i].key) == Some(f[i].val) {
          ProjectGet(f, allowed, f[i].key);
          GetDistinct(f, i);
        }
        forall j | 0 <= j < |r| ensures HasKey(f, r[j].key) {
          assert Get(f, r[j].key) == Some(r[j].val);
        }
      }
    }
  }

  /** A normalised card equals its own normalised form. */
  lemma NormalizedIsSame(card: Value, allowed: seq<string>)
    requires NoDup(allowed)
    ensures SameCard(Object(Normalize(card, allowed)), Normalize(Object(Normalize(card, allowed)), allowed))
  {
    NormalizeDistinct(card, allowed);
    SameCardIff(Object(Normalize(card, allowed)), allowed);
  }

  // ---------------------------------------------------------------------------
  // The file of a card
  // ---------------------------------------------------------------------------

  /** `_extract_file_path`: the card's own `file_path`, else that of a single wrapped dict, else "". */
  function ExtractFilePath(card: Value): string
  {
    if !card.Object? then ""
    else if HasKey(card.fields, "file_path") then PyStr(GetOr(card.fields, "file_path", Str("")))
    else if |card.fields| == 1 && card.fields[0].val.Object? then
      PyStr(GetOr(card.fields[0].val.fields, "file_path", Str("")))
    else ""
  }

  /** A dict that names its file gives that file. */
  lemma ExtractOfFlat(fields: seq<Field>)
    requires HasKey(fields, "file_path")
    ensures ExtractFilePath(Object(fields)) == PyStr(Get(fields, "file_path").value)
  {
  }

  /** A dict wrapped under another key gives up its own file. */
  lemma ExtractOfWrapped(k: string, inner: seq<Field>)
    requires k != "file_path" && HasKey(inner, "file_path")
    ensures ExtractFilePath(Object([Field(k, Object(inner))])) == PyStr(Get(inner, "file_path").value)
  {
    assert !HasKey([Field(k, Object(inner))], "file_path");
  }

  /** The file of a card as the classifier records it is found in its wrapped layout. */
  lemma ExtractOfClassified(card: CardClassifier.Card)
    ensures ExtractFilePath(CardClassifier.Classify(card)) == card.filePath
  {
    CardClassifier.ClassifyShape(card);
    var k := CardClassifier.KindKey(CardClassifier.DetectType(card));
    ExtractOfWrapped(k, CardClassifier.Inner(card));
  }

  /**
   * Normalising keeps the file a card names, in the flat layout and in the
   * wrapped one, as long as `file_path` is an allowed field.
   */
  lemma ExtractOfNormalized(card: Value, allowed: seq<string>)
    requires "file_path" in allowed
    requires card.Object? && HasKey(Unwrapped(card.fields, allowed), "file_path")
    ensures ExtractFilePath(Object(Normalize(card, allowed))) == ExtractFilePath(card)
  {
    var u := Unwrapped(card.fields, allowed);
    var r := Normalize(card, allowed);
    NormalizeGet(card, allowed, "file_path");
    assert Get(r, "file_path") == Get(u, "file_path");
    ExtractOfFlat(r);
    if Wrapped(card.fields, allowed) {
      ExtractOfWrapped(card.fields[0].key, u);
      assert card == Object([Field(card.fields[0].key, Object(u))]);
    } else {
      ExtractOfFlat(u);
    }
  }

  // ---------------------------------------------------------------------------
  // Merging the cached folders
  // ---------------------------------------------------------------------------

  /** `str(card.get("file_path", ""))`: the path a card is filed under. */
  function FileKey(fields: seq<Field>): string
  {
    PyStr(GetOr(fields, "file_path", Str("")))
  }

  /**
   * `cache.get("folders", {})` for a cache that is a dict, `{}` for one that
   * is not; None when what is found there is not a dict.
   */
  function FolderMap(cache: Value): Option<seq<Field>>
  {
    if !cache.Object? then Some([])
    else match GetOr(cache.fields, "folders", Object([]))
      case Object(fs) => Some(fs)
      case _ => None
  }

  /** The folders other than `k`, in their order. */
  function Without(fs: seq<Field>, k: string): (r: seq<Field>)
    ensures forall f :: f in r <==> f in fs && f.key != k
  {
    if fs == [] then []
    else
      var rest := Without(fs[1..], k);
      assert forall f :: f in fs <==> f == fs[0] || f in fs[1..];
      if fs[0].key == k then rest else [fs[0]] + rest
  }

  /** The order the folders are visited in: a preferred folder that is present goes last. */
  function Visit(fs: seq<Field>, preferred: string): seq<Field>
  {
    if preferred != "" && HasKey(fs, preferred) then
      Without(fs, preferred) + [Field(preferred, Get(fs, preferred).value)]
    else fs
  }

  /** `data.get("cards", [])` of a folder entry that is a dict, when that is a list; nothing otherwise. */
  function Stored(data: Value): seq<Value>
  {
    if !data.Object? then []
    else match GetOr(data.fields, "cards", List([]))
      case List(items) => items
      case _ => []
  }

  /** A card that gets filed: a dict with a non-empty file path. */
  predicate Filed(card: Value)
  {
    card.Object? && FileKey(card.fields) != ""
  }

  /** What is filed for a card: its normalised form, or the card itself when no fields are allowed. */
  function Kept(card: Value, allowed: seq<string>): Value
  {
    if allowed != [] then Object(Normalize(card, allowed)) else card
  }

  /** One step of the inner loop: `by_file[file_path] = normalized` for a card that gets filed. */
  function Admit(byFile: seq<Field>, card: Value, allowed: seq<string>): seq<Field>
  {
    if Filed(card) then Put(byFile, FileKey(card.fields), Kept(card, allowed)) else byFile
  }

  /** The inner loop, over the cards of one folder. */
  function AdmitAll(byFile: seq<Field>, cards: seq<Value>, allowed: seq<string>): seq<Field>
    decreases |cards|
  {
    if cards == [] then byFile
    else Admit(AdmitAll(byFile, cards[..|cards| - 1], allowed), cards[|cards| - 1], allowed)
  }

  /** The outer loop: `by_file` after the given folders. */
  function Merge(items: seq<Field>, allowed: seq<string>): seq<Field>
    decreases |items|
  {
    if items == [] then []
    else AdmitAll(Merge(items[..|items| - 1], allowed), Stored(items[|items| - 1].val), allowed)
  }

  /** One more folder is admitted after those before it. */
  lemma MergeStep(items: seq<Field>, allowed: seq<string>, i: nat)
    requires i < |items|
    ensures Merge(items[..i + 1], allowed) == AdmitAll(Merge(items[..i], allowed), Stored(items[i].val), allowed)
  {
    assert items[..i + 1][..i] == items[..i];
  }

  /** One more card is admitted after those before it. */
  lemma AdmitAllStep(byFile: seq<Field>, cards: seq<Value>, allowed: seq<string>, j: nat)
    requires j < |cards|
    ensures AdmitAll(byFile, cards[..j + 1], allowed) == Admit(AdmitAll(byFile, cards[..j], allowed), cards[j], allowed)
  {
    assert cards[..j + 1][..j] == cards[..j];
  }

  /** `list(d.values())`. */
  function ValuesOf(d: seq<Field>): seq<Value>
  {
    seq(|d|, j requires 0 <= j < |d| => d[j].val)
  }

  /**
   * `_collect_cards(cache, preferred_path, allowed=...)`. The empty string
   * stands for no preferred folder (None and "" are both falsy), the empty
   * sequence for no allowed set.
   */
  function Collected(cache: Value, preferred: string, allowed: seq<string>): seq<Value>
  {
    match FolderMap(cache)
    case None => []
    case Some(fs) => ValuesOf(Merge(Visit(fs, preferred), allowed))
  }

  /** The inner loop of `_collect_cards`, over the cards stored for one folder. */
  method AdmitFolder(byFile: seq<Field>, data: Value, allowed: seq<string>) returns (r: seq<Field>)
    ensures r == AdmitAll(byFile, Stored(data), allowed)
  {
    r := byFile;
    if !data.Object? {
      return;
    }
    var stored := GetOr(data.fields, "cards", List([]));
    if !stored.List? {
      return;
    }
    assert Stored(data) == stored.items;
    for j := 0 to |stored.items|
      invariant r == AdmitAll(byFile, stored.items[..j], allowed)
    {
      AdmitAllStep(byFile, stored.items, allowed, j);
      var card := stored.items[j];
      if card.Object? {
        var path := FileKey(card.fields);
        if path != "" {
          var normalized := if allowed != [] then Object(Normalize(card, allowed)) else card;
          r := Put(r, path, normalized);
        }
      }
    }
    assert stored.items[..|stored.items|] == stored.items;
  }

  /** `_collect_cards`, loop by loop. */
  method CollectCards(cache: Value, preferred: string, allowed: seq<string>) returns (cards: seq<Value>)
    ensures cards == Collected(cache, preferred, allowed)
  {
    var folders := FolderMap(cache);
    if folders.None? {
      return [];
    }
    var items := folders.value;
    if preferred != "" && HasKey(items, preferred) {
      items := Without(items, preferred) + [Field(preferred, Get(folders.value, preferred).value)];
    }
    assert items == Visit(folders.value, preferred);
    var byFile: seq<Field> := [];
    for i := 0 to |items|
      invariant byFile == Merge(items[..i], allowed)
    {
      MergeStep(items, allowed, i);
      byFile := AdmitFolder(byFile, items[i].val, allowed);
    }
    assert items[..|items|] == items;
    cards := ValuesOf(byFile);
  }

  /** The last card in `cards` filed under `k`, if any. */
  function LastFiled(cards: seq<Value>, k: string): (r: Option<Value>)
    ensures r.Some? ==> r.value in cards && Filed(r.value) && FileKey(r.value.fields) == k
    ensures r.None? ==> forall c :: c in cards && Filed(c) ==> FileKey(c.fields) != k
    decreases |cards|
  {
    if cards == [] then None
    else
      var c := cards[|cards| - 1];
      assert forall x :: x in cards <==> x == c || x in cards[..|cards| - 1];
      if Filed(c) && FileKey(c.fields) == k then Some(c) else LastFiled(cards[..|cards| - 1], k)
  }

  /** After the cards of a folder, a path holds the last card filed under it there, or what it held before. */
  lemma {:induction false} AdmitAllGet(byFile: seq<Field>, cards: seq<Value>, allowed: seq<string>, k: string)
    ensures Get(AdmitAll(byFile, cards, allowed), k) ==
      match LastFiled(cards, k)
      case Some(c) => Some(Kept(c, allowed))
      case None => Get(byFile, k)
    decreases |cards|
  {
    if cards != [] {
      var c := cards[|cards| - 1];
      AdmitAllGet(byFile, cards[..|cards| - 1], allowed, k);
      if Filed(c) {
        PutGet(AdmitAll(byFile, cards[..|cards| - 1], allowed), FileKey(c.fields), Kept(c, allowed), k);
      }
    }
  }

  /** After one more folder, a path holds the last card that folder files under it, or what it held before. */
  lemma MergeStepGet(items: seq<Field>, allowed: seq<string>, k: string)
    requires items != []
    ensures var n := |items| - 1;
      Get(Merge(items, allowed), k) ==
        match LastFiled(Stored(items[n].val), k)
        case Some(c) => Some(Kept(c, allowed))
        case None => Get(Merge(items[..n], allowed), k)
  {
    var n := |items| - 1;
    AdmitAllGet(Merge(items[..n], allowed), Stored(items[n].val), allowed, k);
  }

  /** A path holds the card of the last folder that files one under it: later folders win. */
  lemma {:induction false} LaterFolderWins(items: seq<Field>, allowed: seq<string>, i: nat, k: string)
    requires i < |items| && LastFiled(Stored(items[i].val), k).Some?
    requires forall j :: i < j < |items| ==> LastFiled(Stored(items[j].val), k).None?
    ensures Get(Merge(items, allowed), k) == Some(Kept(LastFiled(Stored(items[i].val), k).value, allowed))
    decreases |items|
  {
    var n := |items| - 1;
    MergeStepGet(items, allowed, k);
    if i < n {
      var prefix := items[..n];
      assert LastFiled(Stored(items[n].val), k).None?;
      assert prefix[i] == items[i];
      forall j | i < j < |prefix|
        ensures LastFiled(Stored(prefix[j].val), k).None?
      {
        assert prefix[j] == items[j];
      }
      LaterFolderWins(prefix, allowed, i, k);
    }
  }

  /** A path no folder files a card under is absent. */
  lemma {:induction false} UnfiledAbsent(items: seq<Field>, allowed: seq<string>, k: string)
    requires forall j :: 0 <= j < |items| ==> LastFiled(Stored(items[j].val), k).None?
    ensures Get(Merge(items, allowed), k).None?
    decreases |items|
  {
    if items != [] {
      var n := |items| - 1;
      var prefix := items[..n];
      MergeStepGet(items, allowed, k);
      assert LastFiled(Stored(items[n].val), k).None?;
      forall j | 0 <= j < |prefix|
        ensures LastFiled(Stored(prefix[j].val), k).None?
      {
        assert prefix[j] == items[j];
      }
      UnfiledAbsent(prefix, allowed, k);
    }
  }

  /** The preferred folder is visited last, so its cards win every tie. */
  lemma PreferredWins(fs: seq<Field>, preferred: string, allowed: seq<string>, k: string)
    requires preferred != "" && HasKey(fs, preferred)
    requires LastFiled(Stored(Get(fs, preferred).value), k).Some?
    ensures Get(Merge(Visit(fs, preferred), allowed), k) ==
      Some(Kept(LastFiled(Stored(Get(fs, preferred).value), k).value, allowed))
  {
    var items := Visit(fs, preferred);
    LaterFolderWins(items, allowed, |items| - 1, k);
  }

  /** Every stored entry is a dict filed under its own path, and no path is stored twice. */
  predicate Filing(d: seq<Field>)
  {
    && DistinctKeys(d)
    && forall f :: f in d ==> f.key != "" && f.val.Object? && FileKey(f.val.fields) == f.key
  }

  /** A card stays filed under the same path once normalised, when `file_path` is kept. */
  lemma KeptFiled(card: Value, allowed: seq<string>)
    requires Filed(card) && (allowed == [] || "file_path" in allowed)
    ensures Kept(card, allowed).Object? && FileKey(Kept(card, allowed).fields) == FileKey(card.fields)
  {
    if allowed != [] {
      assert HasKey(card.fields, "file_path");
      if |card.fields| == 1 {
        assert card.fields[0].key == "file_path";
      }
      assert !Wrapped(card.fields, allowed);
      NormalizeGet(card, allowed, "file_path");
    }
  }

  lemma {:induction false} AdmitAllFiling(byFile: seq<Field>, cards: seq<Value>, allowed: seq<string>)
    requires Filing(byFile) && (allowed == [] || "file_path" in allowed)
    ensures Filing(AdmitAll(byFile, cards, allowed))
    decreases |cards|
  {
    if cards != [] {
      var c := cards[|cards| - 1];
      var d := AdmitAll(byFile, cards[..|cards| - 1], allowed);
      AdmitAllFiling(byFile, cards[..|cards| - 1], allowed);
      if Filed(c) {
        KeptFiled(c, allowed);
        PutDistinct(d, FileKey(c.fields), Kept(c, allowed));
        PutFields(d, FileKey(c.fields), Kept(c, allowed));
      }
    }
  }

  lemma {:induction false} MergeFiling(items: seq<Field>, allowed: seq<string>)
    requires allowed == [] || "file_path" in allowed
    ensures Filing(Merge(items, allowed))
    decreases |items|
  {
    if items != [] {
      var n := |items| - 1;
      MergeFiling(items[..n], allowed);
      AdmitAllFiling(Merge(items[..n], allowed), Stored(items[n].val), allowed);
    }
  }

  /** The path a merged entry is shown under: its file path, "" for anything but a dict. */
  function PathOf(card: Value): string
  {
    if card.Object? then FileKey(card.fields) else ""
  }

  /** The values of a filing are filed under distinct paths. */
  lemma FilingValues(d: seq<Field>)
    requires Filing(d)
    ensures forall c :: c in ValuesOf(d) ==> Filed(c)
    ensures forall i, j :: 0 <= i < j < |ValuesOf(d)| ==> PathOf(ValuesOf(d)[i]) != PathOf(ValuesOf(d)[j])
  {
    var r := ValuesOf(d);
    forall i | 0 <= i < |r| ensures Filed(r[i]) && PathOf(r[i]) == d[i].key {
      assert d[i] in d;
    }
  }

  /**
   * The merged list never holds two cards with the same file path, and every
   * card in it is a dict with a non-empty one, as long as `file_path` is kept.
   */
  lemma CollectedDistinct(cache: Value, preferred: string, allowed: seq<string>)
    requires allowed == [] || "file_path" in allowed
    ensures forall c :: c in Collected(cache, preferred, allowed) ==> Filed(c)
    ensures forall i, j :: 0 <= i < j < |Collected(cache, preferred, allowed)| ==>
      PathOf(Collected(cache, preferred, allowed)[i]) != PathOf(Collected(cache, preferred, allowed)[j])
  {
    if FolderMap(cache).Some? {
      MergeFiling(Visit(FolderMap(cache).value, preferred), allowed);
      FilingValues(Merge(Visit(FolderMap(cache).value, preferred), allowed));
    }
  }

  /** A card the preferred folder files under a path is the one the merged list holds for it. */
  lemma CollectedPrefers(cache: Value, preferred: string, allowed: seq<string>, k: string)
    requires FolderMap(cache).Some? && preferred != "" && HasKey(FolderMap(cache).value, preferred)
    requires LastFiled(Stored(Get(FolderMap(cache).value, preferred).value), k).Some?
    ensures Kept(LastFiled(Stored(Get(FolderMap(cache).value, preferred).value), k).value, allowed)
      in Collected(cache, preferred, allowed)
  {
    var fs := FolderMap(cache).value;
    var d := Merge(Visit(fs, preferred), allowed);
    PreferredWins(fs, preferred, allowed, k);
    var i :| 0 <= i < |d| && d[i] == Field(k, Get(d, k).value);
    assert ValuesOf(d)[i] == d[i].val;
  }

  // ---------------------------------------------------------------------------
  // Recording a scan
  // ---------------------------------------------------------------------------

  /** The entry `save_folder_cards` writes for a folder; `now` is the ISO timestamp of the clock. */
  function FolderEntry(folderPath: string, cards: seq<Value>, now: string): Value
  {
    Object([Field("folder_path", Str(folderPath)), Field("last_scanned", Str(now)),
            Field("card_count", Int(|cards|)), Field("cards", List(cards))])
  }

  /**
   * `save_folder_cards` on the cache `_load_cache` returned: `setdefault`
   * appends an empty `folders` dict when there is none, and the folder's entry
   * replaces any earlier one. A cache that is not a dict raises
   * AttributeError, a `folders` that is not a dict TypeError.
   */
  function SaveFolderCards(cache: Value, folderPath: string, cards: seq<Value>, now: string): (r: Result<Value, string>)
    ensures r.Success? <==> cache.Object? && GetOr(cache.fields, "folders", Object([])).Object?
  {
    if !cache.Object? then Failure("AttributeError")
    else match GetOr(cache.fields, "folders", Object([]))
      case Object(fs) =>
        Success(Object(Put(cache.fields, "folders", Object(Put(fs, folderPath, FolderEntry(folderPath, cards, now))))))
      case _ => Failure("TypeError")
  }

  /**
   * After a save the folder reads as its new entry, which counts and holds
   * the cards given; every other folder and every other key of the cache
   * read as before.
   */
  lemma SavedFolders(cache: Value, folderPath: string, cards: seq<Value>, now: string, q: string, k: string)
    requires SaveFolderCards(cache, folderPath, cards, now).Success?
    ensures SaveFolderCards(cache, folderPath, cards, now).value.Object?
    ensures k != "folders" ==>
      Get(SaveFolderCards(cache, folderPath, cards, now).value.fields, k) == Get(cache.fields, k)
    ensures FolderMap(SaveFolderCards(cache, folderPath, cards, now).value).Some?
    ensures Get(FolderMap(SaveFolderCards(cache, folderPath, cards, now).value).value, q) ==
      if q == folderPath then Some(FolderEntry(folderPath, cards, now)) else Get(FolderMap(cache).value, q)
  {
    var fs := GetOr(cache.fields, "folders", Object([])).fields;
    assert FolderMap(cache) == Some(fs);
    var entry := FolderEntry(folderPath, cards, now);
    var saved := Put(fs, folderPath, entry);
    var top := Put(cache.fields, "folders", Object(saved));
    assert SaveFolderCards(cache, folderPath, cards, now) == Success(Object(top));
    assert k != "folders" ==> Get(top, k) == Get(cache.fields, k) by {
      PutGet(cache.fields, "folders", Object(saved), k);
    }
    assert FolderMap(Object(top)) == Some(saved) by {
      PutGet(cache.fields, "folders", Object(saved), "folders");
    }
    assert Get(saved, q) == if q == folderPath then Some(entry) else Get(fs, q) by {
      PutGet(fs, folderPath, entry, q);
    }
  }

  /** A folder entry holds the cards given. */
  lemma EntryCards(folderPath: string, cards: seq<Value>, now: string)
    ensures Stored(FolderEntry(folderPath, cards, now)) == cards
  {
    var f := FolderEntry(folderPath, cards, now).fields;
    assert f[0].key != "cards" && f[1].key != "cards" && f[2].key != "cards";
    GetAt(f, 3, "cards");
  }

  /** A folder entry counts the cards given. */
  lemma EntryCount(folderPath: string, cards: seq<Value>, now: string)
    ensures Get(FolderEntry(folderPath, cards, now).fields, "card_count") == Some(Int(|cards|))
  {
    var f := FolderEntry(folderPath, cards, now).fields;
    assert f[0].key != "card_count" && f[1].key != "card_count";
    GetAt(f, 2, "card_count");
  }

  /**
   * After a scan is saved, merging with that folder preferred shows, for each
   * path its cards use, the last of its cards filed under that path.
   */
  lemma SaveThenCollect(cache: Value, folderPath: string, cards: seq<Value>, now: string, allowed: seq<string>, k: string)
    requires SaveFolderCards(cache, folderPath, cards, now).Success? && folderPath != ""
    requires LastFiled(cards, k).Some?
    ensures Kept(LastFiled(cards, k).value, allowed)
      in Collected(SaveFolderCards(cache, folderPath, cards, now).value, folderPath, allowed)
  {
    var saved := SaveFolderCards(cache, folderPath, cards, now).value;
    SavedFolders(cache, folderPath, cards, now, folderPath, "folders");
    EntryCards(folderPath, cards, now);
    CollectedPrefers(saved, folderPath, allowed, k);
  }

  // ---------------------------------------------------------------------------
  // Migrating legacy entries
  // ---------------------------------------------------------------------------

  /** `for c in v`: a list yields its items, a dict its keys, a string its characters; anything else raises TypeError. */
  function Iterated(v: Value): Option<seq<Value>>
  {
    match v
    case List(items) => Some(items)
    case Object(fields) => Some(seq(|fields|, j requires 0 <= j < |fields| => Str(fields[j].key)))
    case Str(s) => Some(seq(|s|, j requires 0 <= j < |s| => Str([s[j]])))
    case _ => None
  }

  /** `[_normalize_card(c, allowed) for c in cards]`. */
  function NormalizeAll(cards: seq<Value>, allowed: seq<string>): seq<Value>
  {
    seq(|cards|, j requires 0 <= j < |cards| => Object(Normalize(cards[j], allowed)))
  }

  /** `raw == normalized`: a list as long, each card a dict equal to its counterpart. */
  predicate SameList(raw: Value, normalized: seq<Value>)
  {
    && raw.List? && |raw.items| == |normalized|
    && forall j :: 0 <= j < |normalized| ==> normalized[j].Object? && SameCard(raw.items[j], normalized[j].fields)
  }

  /** `folder_data.get("cards", [])`. */
  function CardsOf(fields: seq<Field>): Value
  {
    GetOr(fields, "cards", List([]))
  }

  /** One pass of the migration loop: the folder entry afterwards, and whether its cards were rewritten. */
  function MigrateFolder(data: Value, allowed: seq<string>): Result<(Value, bool), string>
  {
    if !data.Object? then Success((data, false))
    else
      var raw := CardsOf(data.fields);
      match Iterated(raw)
      case None => Failure("TypeError")
      case Some(cs) =>
        var normalized := NormalizeAll(cs, allowed);
        if SameList(raw, normalized) then Success((data, false))
        else Success((Object(Put(data.fields, "cards", List(normalized))), true))
  }

  /**
   * The migration loop over the folders: it succeeds when every folder does,
   * leaves each folder where it was with its migrated entry, and reports a
   * change when some folder changed.
   */
  function MigrateFolders(fs: seq<Field>, allowed: seq<string>): (r: Result<(seq<Field>, bool), string>)
    ensures r.Success? <==> forall i :: 0 <= i < |fs| ==> MigrateFolder(fs[i].val, allowed).Success?
    ensures r.Failure? ==> r.error == "TypeError"
    ensures r.Success? ==> |r.value.0| == |fs|
    ensures r.Success? ==> forall i :: 0 <= i < |fs| ==>
      r.value.0[i] == Field(fs[i].key, MigrateFolder(fs[i].val, allowed).value.0)
    ensures r.Success? ==>
      (r.value.1 <==> exists i :: 0 <= i < |fs| && MigrateFolder(fs[i].val, allowed).value.1)
    decreases |fs|
  {
    if fs == [] then Success(([], false))
    else
      var n := |fs| - 1;
      var prefix := MigrateFolders(fs[..n], allowed);
      assert forall i :: 0 <= i < n ==> fs[..n][i] == fs[i];
      match prefix
      case Failure(e) => Failure(e)
      case Success((done, changed)) =>
        match MigrateFolder(fs[n].val, allowed)
        case Failure(e) => Failure(e)
        case Success((data, c)) => Success((done + [Field(fs[n].key, data)], changed || c))
  }

  /**
   * The migration in `_load_cached_cards`: each folder of a dict cache whose
   * `folders` is a dict is migrated in place; the flag says whether the
   * cache is written back.
   */
  function Migrate(cache: Value, allowed: seq<string>): Result<(Value, bool), string>
  {
    if !cache.Object? then Success((cache, false))
    else match Get(cache.fields, "folders")
      case Some(Object(fs)) =>
        (match MigrateFolders(fs, allowed)
         case Failure(e) => Failure(e)
         case Success((migrated, changed)) =>
           Success((Object(Put(cache.fields, "folders", Object(migrated))), changed)))
      case _ => Success((cache, false))
  }

  /** The migration loop over one more folder: it goes on from the folders before it. */
  lemma MigrateFoldersStep(fs: seq<Field>, allowed: seq<string>, i: nat)
    requires i < |fs|
    ensures MigrateFolders(fs[..i + 1], allowed) ==
      match MigrateFolders(fs[..i], allowed)
      case Failure(e) => Failure(e)
      case Success((done, changed)) =>
        match MigrateFolder(fs[i].val, allowed)
        case Failure(e) => Failure(e)
        case Success((data, c)) => Success((done + [Field(fs[i].key, data)], changed || c))
  {
    assert fs[..i + 1][..i] == fs[..i];
  }

  /** The body of the migration loop, for one folder entry. */
  method MigrateEntry(data: Value, allowed: seq<string>) returns (r: Result<(Value, bool), string>)
    ensures r == MigrateFolder(data, allowed)
  {
    if !data.Object? {
      return Success((data, false));
    }
    var raw := CardsOf(data.fields);
    var cs := Iterated(raw);
    if cs.None? {
      return Failure("TypeError");
    }
    var normalized := NormalizeAll(cs.value, allowed);
    if SameList(raw, normalized) {
      return Success((data, false));
    }
    return Success((Object(Put(data.fields, "cards", List(normalized))), true));
  }

  /** The migration loop of `_load_cached_cards`, with its `changed` flag. */
  method MigrateCache(cache: Value, allowed: seq<string>) returns (r: Result<(Value, bool), string>)
    ensures r == Migrate(cache, allowed)
  {
    if !cache.Object? {
      return Success((cache, false));
    }
    var found := Get(cache.fields, "folders");
    if !(found.Some? && found.value.Object?) {
      return Success((cache, false));
    }
    var folders := found.value.fields;
    var done: seq<Field> := [];
    var changed := false;
    for i := 0 to |folders|
      invariant MigrateFolders(folders[..i], allowed) == Success((done, changed))
    {
      MigrateFoldersStep(folders, allowed, i);
      var step := MigrateEntry(folders[i].val, allowed);
      if step.Failure? {
        assert MigrateFolders(folders, allowed).Failure?;
        return Failure("TypeError");
      }
      done := done + [Field(folders[i].key, step.value.0)];
      changed := changed || step.value.1;
    }
    assert folders[..|folders|] == folders;
    return Success((Object(Put(cache.fields, "folders", Object(done))), changed));
  }

  /** A card list in the slim layout: a list of dicts, each with allowed keys only. */
  predicate Slim(raw: Value, allowed: seq<string>)
  {
    raw.List? && forall j :: 0 <= j < |raw.items| ==> raw.items[j].Object? && OnlyAllowed(raw.items[j].fields, allowed)
  }

  /** Every dict in a card list has distinct keys, as every dict `json.loads` builds does. */
  predicate DictsDistinct(raw: Value)
  {
    raw.List? ==> forall j :: 0 <= j < |raw.items| && raw.items[j].Object? ==> DistinctKeys(raw.items[j].fields)
  }

  /** A folder's cards are rewritten exactly when they are not already in the slim layout. */
  lemma FolderChangesIff(data: Value, allowed: seq<string>)
    requires data.Object? && MigrateFolder(data, allowed).Success? && DictsDistinct(CardsOf(data.fields))
    ensures MigrateFolder(data, allowed).value.1 <==> !Slim(CardsOf(data.fields), allowed)
  {
    var raw := CardsOf(data.fields);
    if raw.List? {
      var normalized := NormalizeAll(raw.items, allowed);
      forall j | 0 <= j < |raw.items|
        ensures SameCard(raw.items[j], normalized[j].fields) <==>
          raw.items[j].Object? && OnlyAllowed(raw.items[j].fields, allowed)
      {
        SameCardIff(raw.items[j], allowed);
      }
    }
  }

  /** A folder entry the migration leaves as it is: its cards are a list equal to its normalised form. */
  predicate Settled(data: Value, allowed: seq<string>)
  {
    data.Object? ==>
      (CardsOf(data.fields).List? && SameList(CardsOf(data.fields), NormalizeAll(CardsOf(data.fields).items, allowed)))
  }

  /** After one pass a folder is settled. */
  lemma MigratedSettled(data: Value, allowed: seq<string>)
    requires NoDup(allowed) && MigrateFolder(data, allowed).Success?
    ensures Settled(MigrateFolder(data, allowed).value.0, allowed)
  {
    var (d, c) := MigrateFolder(data, allowed).value;
    if c {
      var cs := Iterated(CardsOf(data.fields)).value;
      var normalized := NormalizeAll(cs, allowed);
      PutGet(data.fields, "cards", List(normalized), "cards");
      var again := NormalizeAll(normalized, allowed);
      forall j | 0 <= j < |normalized|
        ensures again[j].Object? && SameCard(normalized[j], again[j].fields)
      {
        NormalizedIsSame(cs[j], allowed);
      }
    }
  }

  /** A settled folder passes the migration unchanged. */
  lemma SettledStays(data: Value, allowed: seq<string>)
    requires Settled(data, allowed)
    ensures MigrateFolder(data, allowed) == Success((data, false))
  {
  }

  /**
   * Migrating a migrated cache changes nothing and does not write it back:
   * the cache `_load_cached_cards` saves is never rewritten on the next start.
   */
  lemma MigrateTwice(cache: Value, allowed: seq<string>)
    requires NoDup(allowed) && Migrate(cache, allowed).Success?
    ensures Migrate(Migrate(cache, allowed).value.0, allowed) == Success((Migrate(cache, allowed).value.0, false))
  {
    if cache.Object? && Get(cache.fields, "folders").Some? && Get(cache.fields, "folders").value.Object? {
      var fs := Get(cache.fields, "folders").value.fields;
      var migrated := MigrateFolders(fs, allowed).value.0;
      var after := Put(cache.fields, "folders", Object(migrated));
      PutGet(cache.fields, "folders", Object(migrated), "folders");
      forall i | 0 <= i < |migrated|
        ensures MigrateFolder(migrated[i].val, allowed) == Success((migrated[i].val, false))
      {
        MigratedSettled(fs[i].val, allowed);
        SettledStays(migrated[i].val, allowed);
      }
      var again := MigrateFolders(migrated, allowed);
      assert again.value.0 == migrated;
      PutSame(after, "folders", Object(migrated));
    }
  }

  /**
   * The cache is written back exactly when some folder entry that is a dict
   * holds cards not already in the slim layout.
   */
  lemma MigrateSavesIff(cache: Value, allowed: seq<string>)
    requires cache.Object? && Get(cache.fields, "folders").Some? && Get(cache.fields, "folders").value.Object?
    requires Migrate(cache, allowed).Success?
    requires forall f :: f in Get(cache.fields, "folders").value.fields && f.val.Object? ==>
      DictsDistinct(CardsOf(f.val.fields))
    ensures Migrate(cache, allowed).value.1 <==>
      exists f :: f in Get(cache.fields, "folders").value.fields && f.val.Object? && !Slim(CardsOf(f.val.fields), allowed)
  {
    var fs := Get(cache.fields, "folders").value.fields;
    forall i | 0 <= i < |fs|
      ensures MigrateFolder(fs[i].val, allowed).value.1 <==> fs[i].val.Object? && !Slim(CardsOf(fs[i].val.fields), allowed)
    {
      assert fs[i] in fs;
      if fs[i].val.Object? {
        FolderChangesIff(fs[i].val, allowed);
      }
    }
    if Migrate(cache, allowed).value.1 {
      var i :| 0 <= i < |fs| && MigrateFolder(fs[i].val, allowed).value.1;
      assert fs[i] in fs;
    }
  }

  // ---------------------------------------------------------------------------
  // The app's own field list
  // ---------------------------------------------------------------------------

  /**
   * With the fields the app keeps, the card list it shows never holds two
   * cards with the same file path, and the cache it migrates on start-up is
   * not rewritten on the next start.
   */
  lemma AppCache(cache: Value, preferred: string)
    ensures forall c :: c in Collected(cache, preferred, AllowedFields) ==> Filed(c)
    ensures forall i, j :: 0 <= i < j < |Collected(cache, preferred, AllowedFields)| ==>
      PathOf(Collected(cache, preferred, AllowedFields)[i]) != PathOf(Collected(cache, preferred, AllowedFields)[j])
    ensures Migrate(cache, AllowedFields).Success? ==>
      Migrate(Migrate(cache, AllowedFields).value.0, AllowedFields) == Success((Migrate(cache, AllowedFields).value.0, false))
  {
    assert "file_path" == AllowedFields[0];
    CollectedDistinct(cache, preferred, AllowedFields);
    if Migrate(cache, AllowedFields).Success? {
      MigrateTwice(cache, AllowedFields);
    }
  }
}
