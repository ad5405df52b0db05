/**
 * The keyword classifier for scanned card text: it splits the text into
 * lines, decides the kind of card by a fixed keyword priority, and pulls the
 * name, subname, traits, numbers and effect text out of the lines.
 */
module CardClassifier {
  import opened Wrappers
  import opened Text
  import opened Json

  const Bullet: char := '\U{2022}'
  const Copyright: char := '\U{a9}'
  const MinusSign: char := '\U{2212}'

  /** What the classifier reads of a card; `text` may be any value and `cardType` may be missing. */
  datatype Card = Card(filePath: string, sizeBytes: int, modifiedTs: Value, text: Value, cardType: Option<string>)

  /** Every line is non-empty and has no whitespace at its ends. */
  predicate Clean(lines: seq<string>)
  {
    forall j :: 0 <= j < |lines| ==> lines[j] != [] && Stripped(lines[j])
  }

  lemma CleanCons(h: string, rest: seq<string>)
    requires h != [] && Stripped(h) && Clean(rest)
    ensures Clean([h] + rest)
  {
    var r := [h] + rest;
    assert forall j :: 1 <= j < |r| ==> r[j] == rest[j - 1];
  }

  lemma CleanAppend(a: seq<string>, b: seq<string>)
    requires Clean(a) && Clean(b)
    ensures Clean(a + b)
  {
    var r := a + b;
    assert forall j :: |a| <= j < |r| ==> r[j] == b[j - |a|];
  }

  // ---------------------------------------------------------------------
  // Lines

  /** `[x.strip() for x in xs if x.strip()]`. */
  function NonBlank(xs: seq<string>): (r: seq<string>)
    ensures Clean(r)
    ensures |r| <= |xs|
  {
    if xs == [] then []
    else
      var h := Strip(xs[0]);
      var rest := NonBlank(xs[1..]);
      if h != [] then
        StripIsStripped(xs[0]);
        CleanCons(h, rest);
        [h] + rest
      else rest
  }

  /** The strings among a list's items, in order. */
  function StrItems(items: seq<Value>): (r: seq<string>)
    ensures |r| <= |items|
  {
    if items == [] then [] else (if items[0].Str? then [items[0].s] else []) + StrItems(items[1..])
  }

  /** `_as_lines`: None gives no lines, a list keeps its strings, anything else is split into lines. */
  function AsLines(text: Value): (lines: seq<string>)
    ensures Clean(lines)
  {
    match text
    case Null => []
    case List(items) => NonBlank(StrItems(items))
    case _ => NonBlank(SplitLines(PyStr(text)))
  }

  /** The first string, stripped, leads the result unless it is blank. */
  lemma NonBlankHead(xs: seq<string>)
    requires xs != []
    ensures NonBlank(xs) == (if Strip(xs[0]) != [] then [Strip(xs[0])] else []) + NonBlank(xs[1..])
  {
  }

  /** Dropping blank lines keeps the order: the lines of a concatenation are the concatenated lines. */
  lemma {:induction false} NonBlankAppend(a: seq<string>, b: seq<string>)
    ensures NonBlank(a + b) == NonBlank(a) + NonBlank(b)
  {
    if a != [] {
      var ab := a + b;
      assert ab[0] == a[0];
      assert ab[1..] == a[1..] + b;
      NonBlankAppend(a[1..], b);
      NonBlankHead(ab);
      NonBlankHead(a);
    } else {
      assert a + b == b;
    }
  }

  /** Lines that are already stripped and non-empty come through unchanged. */
  lemma {:induction false} NonBlankOfClean(xs: seq<string>)
    requires Clean(xs)
    ensures NonBlank(xs) == xs
  {
    if xs != [] {
      StripOfStripped(xs[0]);
      NonBlankOfClean(xs[1..]);
      assert xs == [xs[0]] + xs[1..];
    }
  }

  /** The result is empty exactly when every string is blank. */
  lemma {:induction false} NonBlankEmpty(xs: seq<string>)
    ensures NonBlank(xs) == [] <==> forall j :: 0 <= j < |xs| ==> Strip(xs[j]) == []
  {
    if xs != [] {
      NonBlankEmpty(xs[1..]);
      if Strip(xs[0]) == [] {
        forall j | 1 <= j < |xs| ensures Strip(xs[j]) == Strip(xs[1..][j - 1]) {
          assert xs[j] == xs[1..][j - 1];
        }
      }
    }
  }

  /** No string of `xs` holds `c`. */
  predicate Avoid(xs: seq<string>, c: char)
  {
    forall j :: 0 <= j < |xs| ==> c !in xs[j]
  }

  lemma AvoidCons(h: seq<string>, rest: seq<string>, c: char)
    requires Avoid(h, c) && Avoid(rest, c)
    ensures Avoid(h + rest, c)
  {
    var r := h + rest;
    forall j | 0 <= j < |r| ensures c !in r[j] {
      if j >= |h| {
        assert r[j] == rest[j - |h|];
      }
    }
  }

  /** A character none of the strings holds is in none of the stripped strings. */
  lemma {:induction false} NonBlankAvoids(xs: seq<string>, c: char)
    requires Avoid(xs, c)
    ensures Avoid(NonBlank(xs), c)
  {
    if xs != [] {
      var rest := xs[1..];
      forall j | 0 <= j < |rest| ensures c !in rest[j] {
        assert rest[j] == xs[j + 1];
      }
      NonBlankAvoids(rest, c);
      var h := Strip(xs[0]);
      assert c !in xs[0];
      if c in h {
        StripChars(xs[0], c);
      }
      NonBlankHead(xs);
      AvoidCons(if h != [] then [h] else [], NonBlank(rest), c);
    }
  }

  function StrValues(xs: seq<string>): (r: seq<Value>)
    ensures |r| == |xs|
    ensures forall j :: 0 <= j < |xs| ==> r[j] == Str(xs[j])
  {
    seq(|xs|, j requires 0 <= j < |xs| => Str(xs[j]))
  }

  lemma {:induction false} StrItemsOfStrValues(xs: seq<string>)
    ensures StrItems(StrValues(xs)) == xs
  {
    if xs != [] {
      assert StrValues(xs)[1..] == StrValues(xs[1..]);
      StrItemsOfStrValues(xs[1..]);
      assert xs == [xs[0]] + xs[1..];
    }
  }

  /** A list of clean lines is read back as exactly those lines. */
  lemma AsLinesOfList(lines: seq<string>)
    requires Clean(lines)
    ensures AsLines(List(StrValues(lines))) == lines
  {
    StrItemsOfStrValues(lines);
    NonBlankOfClean(lines);
  }

  /** Clean lines written one per line are read back as exactly those lines. */
  lemma AsLinesOfText(lines: seq<string>)
    requires Clean(lines)
    requires forall j, i :: 0 <= j < |lines| && 0 <= i < |lines[j]| ==> !IsLineBreak(lines[j][i])
    ensures AsLines(Str(Join("\n", lines))) == lines
  {
    var text := Join("\n", lines);
    assert AsLines(Str(text)) == NonBlank(SplitLines(text));
    if lines == [] {
      assert SplitLines(text) == [""];
      assert NonBlank([""]) == [];
    } else {
      assert SplitLines(text) == lines by {
        SplitLinesOfJoin(lines);
      }
      assert NonBlank(lines) == lines by {
        NonBlankOfClean(lines);
      }
    }
  }

  // ---------------------------------------------------------------------
  // Metadata lines

  /** Length of the run of ASCII digits that starts `s`. */
  function DigitRun(s: string): (k: nat)
    ensures k <= |s|
    ensures forall i :: 0 <= i < k ==> IsDigit(s[i])
    ensures k < |s| ==> !IsDigit(s[k])
  {
    if s == [] || !IsDigit(s[0]) then 0 else 1 + DigitRun(s[1..])
  }

  /** `re.match(r"^[vV]\d+", line)`. */
  predicate VersionMark(line: string)
  {
    |line| >= 2 && (line[0] == 'v' || line[0] == 'V') && IsDigit(line[1])
  }

  /** `re.match(r"^\d+/\d+", line)`. */
  predicate PageMark(line: string)
  {
    var k := DigitRun(line);
    0 < k && k + 1 < |line| && line[k] == '/' && IsDigit(line[k + 1])
  }

  /** `_is_meta`: a line that is print or file metadata rather than card text. */
  predicate IsMeta(line: string)
  {
    line == [] || Copyright in line || Contains(Lower(line), ".psd")
    || VersionMark(line) || PageMark(line) || line in {"EN", "SYS", "HMW"}
  }

  lemma {:induction false} DigitRunOfDigits(a: string, rest: string)
    requires AllDigits(a)
    requires rest == [] || !IsDigit(rest[0])
    ensures DigitRun(a + rest) == |a|
  {
    if a != [] {
      assert (a + rest)[1..] == a[1..] + rest;
      DigitRunOfDigits(a[1..], rest);
    } else {
      assert a + rest == rest;
    }
  }

  /** Every line that starts with digits, a slash and a digit is a page marker, whatever follows. */
  lemma PageMarkOfDigits(a: string, b: string, rest: string)
    requires a != [] && AllDigits(a) && b != [] && AllDigits(b)
    ensures IsMeta(a + "/" + b + rest)
  {
    var line := a + "/" + b + rest;
    assert a + "/" + b + rest == a + ("/" + b + rest);
    DigitRunOfDigits(a, "/" + b + rest);
    assert line[|a|] == '/' && line[|a| + 1] == b[0];
    assert PageMark(line);
  }

  // ---------------------------------------------------------------------
  // Integer lines

  /**
   * `re.match(r"^[+−-]?\d+$", ln.replace("−", "-"))`, read with `int`:
   * an optional sign and decimal digits, where `$` also lets one final
   * "\n" follow.
   */
  function IntValue(ln: string): Option<int>
  {
    var s := ReplaceChar(ln, MinusSign, '-');
    var body := if s != [] && s[|s| - 1] == '\n' then s[..|s| - 1] else s;
    if body != [] && (body[0] == '+' || body[0] == '-') then
      if |body| > 1 && AllDigits(body[1..]) then
        Some(if body[0] == '-' then -(DigitsValue(body[1..]) as int) else DigitsValue(body[1..]))
      else None
    else if body != [] && AllDigits(body) then Some(DigitsValue(body))
    else None
  }

  /** The integer a line contributes, as a list of zero or one values. */
  function IntOf(ln: string): seq<int>
  {
    match IntValue(ln)
    case Some(v) => [v]
    case None => []
  }

  /** The values of the integer lines, in line order. */
  function Ints(lines: seq<string>): seq<int>
  {
    if lines == [] then [] else Ints(lines[..|lines| - 1]) + IntOf(lines[|lines| - 1])
  }

  /** `_extract_ints`. */
  method ExtractInts(lines: seq<string>) returns (nums: seq<int>)
    ensures nums == Ints(lines)
  {
    nums := [];
    for i := 0 to |lines|
      invariant nums == Ints(lines[..i])
    {
      assert lines[..i + 1][..i] == lines[..i];
      var m := IntValue(lines[i]);
      if m.Some? {
        nums := nums + [m.value];
      }
    }
    assert lines[..|lines|] == lines;
  }

  /** The integers of a concatenation are the integers of each part, in order. */
  lemma {:induction false} IntsAppend(a: seq<string>, b: seq<string>)
    ensures Ints(a + b) == Ints(a) + Ints(b)
    decreases |b|
  {
    if b == [] {
      assert a + b == a;
    } else {
      var b' := b[..|b| - 1];
      assert (a + b)[..|a + b| - 1] == a + b';
      IntsAppend(a, b');
    }
  }

  lemma ReplaceAbsent(s: string, a: char, b: char)
    requires a !in s
    ensures ReplaceChar(s, a, b) == s
  {
  }

  /** `int` reads back every number that `str` writes. */
  lemma IntValueOfString(n: int)
    ensures IntValue(IntToString(n)) == Some(n)
  {
    if n < 0 {
      DigitsOfNatToString(-n);
      IntValueOfNegDigits(NatToString(-n));
    } else {
      DigitsOfNatToString(n);
      IntValueOfDigits(NatToString(n));
    }
  }

  /** A non-empty run of digits reads as its value. */
  lemma IntValueOfDigits(d: string)
    requires d != [] && AllDigits(d)
    ensures IntValue(d) == Some(DigitsValue(d))
  {
    assert MinusSign !in d by {
      forall i | 0 <= i < |d| ensures d[i] != MinusSign {
        assert IsDigit(d[i]);
      }
    }
    ReplaceAbsent(d, MinusSign, '-');
    assert IsDigit(d[0]) && IsDigit(d[|d| - 1]);
  }

  /** A minus followed by a non-empty run of digits reads as the negated value. */
  lemma IntValueOfNegDigits(d: string)
    requires d != [] && AllDigits(d)
    ensures IntValue("-" + d) == Some(-(DigitsValue(d) as int))
  {
    var s := "-" + d;
    assert MinusSign !in s by {
      forall i | 0 <= i < |s| ensures s[i] != MinusSign {
        if i > 0 {
          assert s[i] == d[i - 1] && IsDigit(d[i - 1]);
        }
      }
    }
    ReplaceAbsent(s, MinusSign, '-');
    assert s[|s| - 1] == d[|d| - 1] && IsDigit(d[|d| - 1]);
    assert s[1..] == d;
  }

  /** A Unicode minus sign reads as a minus. */
  lemma IntValueOfUnicodeMinus(n: nat)
    ensures IntValue([MinusSign] + NatToString(n)) == Some(-(n as int))
  {
    var digits := NatToString(n);
    DigitsOfNatToString(n);
    var s := ReplaceChar([MinusSign] + digits, MinusSign, '-');
    assert s == "-" + digits;
    assert s[1..] == digits;
  }

  lemma IntsStep(lines: seq<string>, ln: string, init: seq<int>, n: int)
    requires Ints(lines) == init && IntOf(ln) == [n]
    ensures Ints(lines + [ln]) == init + [n]
  {
    assert (lines + [ln])[..|lines|] == lines;
  }

  lemma IntOfString(n: int)
    ensures IntOf(IntToString(n)) == [n]
  {
    IntValueOfString(n);
  }

  /** The numbers written one per line, with `str`. */
  function Numerals(ns: seq<int>): (lines: seq<string>)
    ensures |lines| == |ns|
  {
    if ns == [] then [] else Numerals(ns[..|ns| - 1]) + [IntToString(ns[|ns| - 1])]
  }

  /** The numbers written one per line are extracted in order. */
  lemma {:induction false} IntsOfNumbers(ns: seq<int>)
    ensures Ints(Numerals(ns)) == ns
    decreases |ns|
  {
    if ns != [] {
      var m := |ns| - 1;
      IntsOfNumbers(ns[..m]);
      IntOfString(ns[m]);
      IntsStep(Numerals(ns[..m]), IntToString(ns[m]), ns[..m], ns[m]);
      assert ns == ns[..m] + [ns[m]];
    }
  }

  // ---------------------------------------------------------------------
  // Traits

  /** `_split_traits`: the stripped non-blank pieces between bullets. */
  function SplitTraits(line: string): seq<string>
  {
    var parts := NonBlank(SplitOn(line, Bullet));
    if parts == [] && IsUpper(line) then Words(line) else parts
  }

  /**
   * The whitespace fallback of `_split_traits` never applies: when every
   * piece is blank the line holds only bullets and whitespace, so it is not
   * upper-case.
   */
  lemma SplitTraitsPieces(line: string)
    ensures SplitTraits(line) == NonBlank(SplitOn(line, Bullet))
  {
    var pieces := SplitOn(line, Bullet);
    if NonBlank(pieces) == [] {
      NonBlankEmpty(pieces);
      BlankPieces(line, Bullet);
      assert !IsUpper(line) by {
        forall i | 0 <= i < |line| ensures !IsUpperChar(line[i]) {
          assert line[i] == Bullet || IsSpace(line[i]);
        }
      }
    }
  }

  /** Every trait is non-empty, stripped and free of bullets. */
  lemma SplitTraitsClean(line: string)
    ensures Clean(SplitTraits(line))
    ensures forall j :: 0 <= j < |SplitTraits(line)| ==> Bullet !in SplitTraits(line)[j]
  {
    SplitTraitsPieces(line);
    NonBlankAvoids(SplitOn(line, Bullet), Bullet);
  }

  /** Traits joined by bullets split back into the same traits. */
  lemma SplitTraitsOfJoin(traits: seq<string>)
    requires traits != [] && Clean(traits)
    requires forall j :: 0 <= j < |traits| ==> Bullet !in traits[j]
    ensures SplitTraits(Join([Bullet], traits)) == traits
  {
    SplitOnJoin(traits, Bullet);
    NonBlankOfClean(traits);
  }

  /** A line without a bullet is one trait, whole, even when it holds several words. */
  lemma SplitTraitsWithoutBullet(line: string)
    requires Bullet !in line && Strip(line) != []
    ensures SplitTraits(line) == [Strip(line)]
  {
    assert FirstIndex(line, Bullet) == |line|;
    assert SplitOn(line, Bullet) == [line];
    assert [line][1..] == [];
    assert NonBlank([line]) == [Strip(line)];
  }

  /** The lines that yield traits: those with a bullet and the upper-case ones. */
  predicate TraitLine(ln: string)
  {
    Bullet in ln || IsUpper(ln)
  }

  /** What one line adds to the traits. */
  function LineTraits(ln: string): seq<string>
  {
    if TraitLine(ln) then SplitTraits(ln) else []
  }

  /** The pieces, in order, one after the other. */
  function Concat(pieces: seq<seq<string>>): seq<string>
    decreases |pieces|
  {
    if pieces == [] then [] else Concat(pieces[..|pieces| - 1]) + pieces[|pieces| - 1]
  }

  /** Whatever is in a piece is in the concatenation. */
  lemma {:induction false} ConcatHas(pieces: seq<seq<string>>, k: nat, t: string)
    requires k < |pieces| && t in pieces[k]
    ensures t in Concat(pieces)
    decreases |pieces|
  {
    var n := |pieces| - 1;
    if k < n {
      assert pieces[..n][k] == pieces[k];
      ConcatHas(pieces[..n], k, t);
    }
  }

  /** Pieces that are clean and free of `c` concatenate to a list that is too. */
  lemma {:induction false} ConcatClean(pieces: seq<seq<string>>, c: char)
    requires forall k :: 0 <= k < |pieces| ==> Clean(pieces[k]) && Avoid(pieces[k], c)
    ensures Clean(Concat(pieces)) && Avoid(Concat(pieces), c)
    decreases |pieces|
  {
    if pieces != [] {
      var n := |pieces| - 1;
      var prefix := pieces[..n];
      forall k | 0 <= k < n ensures Clean(prefix[k]) && Avoid(prefix[k], c) {
        assert prefix[k] == pieces[k];
      }
      ConcatClean(prefix, c);
      CleanAppend(Concat(prefix), pieces[n]);
      AvoidCons(Concat(prefix), pieces[n], c);
    }
  }

  /** The traits of each line, line by line. */
  function TraitPieces(lines: seq<string>): (pieces: seq<seq<string>>)
    ensures |pieces| == |lines|
  {
    seq(|lines|, i requires 0 <= i < |lines| => LineTraits(lines[i]))
  }

  /** The traits the loop of the unit, upgrade, event and leader parsers gathers, before filtering. */
  function RawTraits(lines: seq<string>): seq<string>
  {
    Concat(TraitPieces(lines))
  }

  /** The trait loop of `_parse_unit`, `_parse_upgrade`, `_parse_event` and `_parse_leader`. */
  method CollectTraits(lines: seq<string>) returns (traits: seq<string>)
    ensures traits == RawTraits(lines)
  {
    ghost var pieces := TraitPieces(lines);
    traits := [];
    for i := 0 to |lines|
      invariant traits == Concat(pieces[..i])
    {
      assert pieces[..i + 1][..i] == pieces[..i];
      assert pieces[i] == LineTraits(lines[i]);
      if Bullet in lines[i] || IsUpper(lines[i]) {
        traits := traits + SplitTraits(lines[i]);
      }
    }
    assert pieces[..|lines|] == pieces;
  }

  /** Every gathered trait is non-empty, stripped and free of bullets. */
  lemma RawTraitsClean(lines: seq<string>)
    ensures Clean(RawTraits(lines))
    ensures forall j :: 0 <= j < |RawTraits(lines)| ==> Bullet !in RawTraits(lines)[j]
  {
    var pieces := TraitPieces(lines);
    forall k | 0 <= k < |pieces| ensures Clean(pieces[k]) && Avoid(pieces[k], Bullet) {
      assert pieces[k] == LineTraits(lines[k]);
      SplitTraitsClean(lines[k]);
    }
    ConcatClean(pieces, Bullet);
  }

  /** The traits `_parse_base` gathers: the words of the upper-case lines other than "BASE". */
  function BaseRawTraits(lines: seq<string>): seq<string>
  {
    if lines == [] then []
    else
      var ln := lines[|lines| - 1];
      BaseRawTraits(lines[..|lines| - 1]) + (if IsUpper(ln) && ln != "BASE" then Words(ln) else [])
  }

  /** The trait loop of `_parse_base`. */
  method CollectBaseTraits(lines: seq<string>) returns (traits: seq<string>)
    ensures traits == BaseRawTraits(lines)
  {
    traits := [];
    for i := 0 to |lines|
      invariant traits == BaseRawTraits(lines[..i])
    {
      assert lines[..i + 1][..i] == lines[..i];
      if IsUpper(lines[i]) && lines[i] != "BASE" {
        traits := traits + Words(lines[i]);
      }
    }
    assert lines[..|lines|] == lines;
  }

  /** `[t for t in traits if t and t.upper() not in kinds]`: keeps exactly the other traits, in order. */
  function DropKinds(traits: seq<string>, kinds: set<string>): (r: seq<string>)
    ensures forall j :: 0 <= j < |r| ==> r[j] in traits && r[j] != [] && Upper(r[j]) !in kinds
    ensures forall t :: t in traits && t != [] && Upper(t) !in kinds ==> t in r
  {
    if traits == [] then []
    else
      var rest := DropKinds(traits[1..], kinds);
      var t := traits[0];
      assert forall u :: u in traits ==> u == t || u in traits[1..];
      if t != [] && Upper(t) !in kinds then [t] + rest else rest
  }

  // ---------------------------------------------------------------------
  // Name and subname

  /** A line that may be the name: neither metadata nor an integer. */
  predicate NameCandidate(ln: string)
  {
    !IsMeta(ln) && Ints([ln]) == []
  }

  /** The name candidates, in order. */
  function Candidates(lines: seq<string>): seq<string>
  {
    if lines == [] then []
    else
      var ln := lines[|lines| - 1];
      Candidates(lines[..|lines| - 1]) + (if NameCandidate(ln) then [ln] else [])
  }

  /** `_pick_name_and_sub`. */
  function PickNameAndSub(lines: seq<string>): (string, string)
  {
    var f := Candidates(lines);
    if f == [] then ("", "")
    else (f[|f| - 1], if |f| > 1 && IsUpper(f[|f| - 2]) then f[|f| - 2] else "")
  }

  /** Index of the last name candidate, or -1. */
  function LastCandidate(lines: seq<string>): (k: int)
    ensures -1 <= k < |lines|
    ensures k >= 0 ==> NameCandidate(lines[k])
    ensures forall j :: k < j < |lines| ==> !NameCandidate(lines[j])
  {
    if lines == [] then -1
    else if NameCandidate(lines[|lines| - 1]) then |lines| - 1
    else
      var n := |lines| - 1;
      var k := LastCandidate(lines[..n]);
      assert forall j :: 0 <= j < n ==> lines[..n][j] == lines[j];
      k
  }

  /** Index of the candidate before the last one, or -1. */
  function PreviousCandidate(lines: seq<string>): (s: int)
    ensures -1 <= s < |lines|
    ensures s >= 0 ==> s < LastCandidate(lines) && NameCandidate(lines[s])
    ensures forall j :: s < j < LastCandidate(lines) ==> !NameCandidate(lines[j])
  {
    var k := LastCandidate(lines);
    if k < 0 then -1
    else
      var s := LastCandidate(lines[..k]);
      assert forall j :: 0 <= j < k ==> lines[..k][j] == lines[j];
      s
  }

  lemma {:induction false} CandidatesLast(lines: seq<string>)
    ensures LastCandidate(lines) < 0 ==> Candidates(lines) == []
    ensures LastCandidate(lines) >= 0 ==>
      Candidates(lines) == Candidates(lines[..LastCandidate(lines)]) + [lines[LastCandidate(lines)]]
    decreases |lines|
  {
    if lines != [] {
      var m := |lines| - 1;
      if !NameCandidate(lines[m]) {
        CandidatesLast(lines[..m]);
        var k := LastCandidate(lines);
        if k >= 0 {
          assert lines[..m][..k] == lines[..k];
        }
      }
    }
  }

  /**
   * The name is the last line that is neither metadata nor an integer, ""
   * when there is none; the subname is the candidate before it when that one
   * is upper-case, and "" otherwise.
   */
  lemma NameAndSub(lines: seq<string>)
    ensures PickNameAndSub(lines).0 == (if LastCandidate(lines) >= 0 then lines[LastCandidate(lines)] else "")
    ensures PickNameAndSub(lines).1 ==
      (if PreviousCandidate(lines) >= 0 && IsUpper(lines[PreviousCandidate(lines)])
       then lines[PreviousCandidate(lines)] else "")
  {
    CandidatesLast(lines);
    var k := LastCandidate(lines);
    if k >= 0 {
      CandidatesLast(lines[..k]);
      var s := LastCandidate(lines[..k]);
      if s >= 0 {
        assert lines[..k][s] == lines[s];
      }
    }
  }

  /** There is a name exactly when some line is neither metadata nor an integer. */
  lemma NameEmpty(lines: seq<string>)
    ensures PickNameAndSub(lines).0 == "" <==> forall j :: 0 <= j < |lines| ==> !NameCandidate(lines[j])
  {
    NameAndSub(lines);
    var k := LastCandidate(lines);
    if k >= 0 {
      assert lines[k] != "";
    }
  }

  // ---------------------------------------------------------------------
  // Kind of card

  function Lowered(lines: seq<string>): (r: seq<string>)
    ensures |r| == |lines|
  {
    seq(|lines|, j requires 0 <= j < |lines| => Lower(lines[j]))
  }

  predicate AnyContains(lines: seq<string>, needle: string)
  {
    exists j :: 0 <= j < |lines| && Contains(lines[j], needle)
  }

  /** `card.type or "Card"`. */
  function FallbackType(cardType: Option<string>): string
  {
    if cardType.Some? && cardType.value != "" then cardType.value else "Card"
  }

  /** The body of `detect_type`, on the card's lines. */
  function TypeOfLines(lines: seq<string>, cardType: Option<string>): (t: string)
    ensures t in {"Leader", "Upgrade", "Event", "Base", "Unit"} || t == FallbackType(cardType)
  {
    var low := Lowered(lines);
    if AnyContains(low, "leader unit") || "leader" in low then "Leader"
    else if AnyContains(low, "upgrade") || AnyContains(low, "fortification") then "Upgrade"
    else if AnyContains(low, "event") then "Event"
    else if "base" in low then "Base"
    else if AnyContains(low, "unit") then "Unit"
    else FallbackType(cardType)
  }

  /** `detect_type`. */
  function DetectType(card: Card): string
  {
    TypeOfLines(AsLines(card.text), card.cardType)
  }

  function UpperLines(lines: seq<string>): (r: seq<string>)
    ensures |r| == |lines|
  {
    seq(|lines|, j requires 0 <= j < |lines| => Upper(lines[j]))
  }

  /** Keywords are matched whatever their case: upper-casing every line changes no decision. */
  lemma TypeIgnoresCase(lines: seq<string>, cardType: Option<string>)
    ensures TypeOfLines(UpperLines(lines), cardType) == TypeOfLines(lines, cardType)
  {
    forall j | 0 <= j < |lines| ensures Lowered(UpperLines(lines))[j] == Lowered(lines)[j] {
      LowerOfCased(lines[j]);
    }
    assert Lowered(UpperLines(lines)) == Lowered(lines);
  }

  /** Some line, lower-cased, contains `needle`. */
  predicate SomeLineHas(lines: seq<string>, needle: string)
  {
    exists j :: 0 <= j < |lines| && Contains(Lower(lines[j]), needle)
  }

  /** Some line, lower-cased, is exactly `word`. */
  predicate SomeLineIs(lines: seq<string>, word: string)
  {
    exists j :: 0 <= j < |lines| && Lower(lines[j]) == word
  }

  /**
   * `detect_type` tries its keywords in a fixed order and the first one found
   * decides: Leader, then Upgrade, Event, Base and Unit, then the card's own
   * type. The converse directions need that own type to be none of the five
   * kinds, since `card.type` may itself read "Unit".
   */
  lemma TypeOfLinesPriority(lines: seq<string>, cardType: Option<string>)
    ensures var t := TypeOfLines(lines, cardType);
      var leader := SomeLineHas(lines, "leader unit") || SomeLineIs(lines, "leader");
      var upgrade := SomeLineHas(lines, "upgrade") || SomeLineHas(lines, "fortification");
      var event := SomeLineHas(lines, "event");
      var base := SomeLineIs(lines, "base");
      var unit := SomeLineHas(lines, "unit");
      (leader ==> t == "Leader")
      && (!leader && upgrade ==> t == "Upgrade")
      && (!leader && !upgrade && event ==> t == "Event")
      && (!leader && !upgrade && !event && base ==> t == "Base")
      && (!leader && !upgrade && !event && !base && unit ==> t == "Unit")
      && (!leader && !upgrade && !event && !base && !unit ==> t == FallbackType(cardType))
      && (FallbackType(cardType) !in {"Leader", "Upgrade", "Event", "Base", "Unit"} ==>
            (t == "Leader" <==> leader)
            && (t == "Upgrade" <==> !leader && upgrade)
            && (t == "Event" <==> !leader && !upgrade && event)
            && (t == "Base" <==> !leader && !upgrade && !event && base)
            && (t == "Unit" <==> !leader && !upgrade && !event && !base && unit))
  {
    LoweredCues(lines);
  }

  /** The tests on the lowered lines read as tests on the lines, lower-cased one by one. */
  lemma LoweredCues(lines: seq<string>)
    ensures forall needle :: AnyContains(Lowered(lines), needle) <==> SomeLineHas(lines, needle)
    ensures forall word :: word in Lowered(lines) <==> SomeLineIs(lines, word)
  {
    var low := Lowered(lines);
    forall needle ensures AnyContains(low, needle) <==> SomeLineHas(lines, needle) {
      if AnyContains(low, needle) {
        var j :| 0 <= j < |low| && Contains(low[j], needle);
        assert Contains(Lower(lines[j]), needle);
      }
      if SomeLineHas(lines, needle) {
        var j :| 0 <= j < |lines| && Contains(Lower(lines[j]), needle);
        assert Contains(low[j], needle);
      }
    }
    forall word ensures word in low <==> SomeLineIs(lines, word) {
      if word in low {
        var j :| 0 <= j < |low| && low[j] == word;
        assert Lower(lines[j]) == word;
      }
      if SomeLineIs(lines, word) {
        var j :| 0 <= j < |lines| && Lower(lines[j]) == word;
        assert low[j] == word;
      }
    }
  }

  /**
   * A line naming an event beats any line naming a unit when no line names a
   * leader, an upgrade or a fortification: "Event" is tried before "Unit".
   */
  lemma EventBeatsUnit(lines: seq<string>, cardType: Option<string>, i: nat, j: nat)
    requires i < |lines| && Contains(Lower(lines[i]), "event")
    requires j < |lines| && Contains(Lower(lines[j]), "unit")
    requires forall k :: 0 <= k < |lines| ==>
      !Contains(Lower(lines[k]), "leader") && !Contains(Lower(lines[k]), "upgrade")
      && !Contains(Lower(lines[k]), "fortification")
    ensures TypeOfLines(lines, cardType) == "Event"
  {
    TypeOfLinesPriority(lines, cardType);
    if SomeLineHas(lines, "leader unit") {
      var k :| 0 <= k < |lines| && Contains(Lower(lines[k]), "leader unit");
      ContainsPrefix(Lower(lines[k]), "leader unit", "leader");
      assert false;
    }
    forall k | 0 <= k < |lines| ensures Lower(lines[k]) != "leader" {
      ContainsPrefix(Lower(lines[k]), Lower(lines[k]), Lower(lines[k]));
    }
    assert SomeLineHas(lines, "event");
  }

  // ---------------------------------------------------------------------
  // Records

  /** The i-th extracted integer, or None. */
  function Slot(nums: seq<int>, i: nat): Value
  {
    if i < |nums| then Int(nums[i]) else Null
  }

  /** `str(x or "")` for the i-th extracted integer: "" when it is missing or zero. */
  function OrBlank(nums: seq<int>, i: nat): string
  {
    if i < |nums| && nums[i] != 0 then IntToString(nums[i]) else ""
  }

  function StrList(xs: seq<string>): Value
  {
    List(StrValues(xs))
  }

  /** `[ln for ln in lines if keep(ln)]`. */
  function KeepLines(lines: seq<string>, keep: string -> bool): (r: seq<string>)
    ensures forall j :: 0 <= j < |r| ==> r[j] in lines && keep(r[j])
    ensures forall ln :: ln in lines && keep(ln) ==> ln in r
  {
    if lines == [] then []
    else
      var rest := KeepLines(lines[1..], keep);
      assert forall u :: u in lines ==> u == lines[0] || u in lines[1..];
      if keep(lines[0]) then [lines[0]] + rest else rest
  }

  /** `" ".join(effect_lines).strip()`. */
  function EffectText(kept: seq<string>): string
  {
    Strip(Join(" ", kept))
  }

  /** The first line that reads "GROUND" or "SPACE" once upper-cased, or "". */
  function Arena(lines: seq<string>): (a: string)
    ensures a == "" || (a in lines && Upper(a) in {"GROUND", "SPACE"})
    ensures a == "" ==> forall j :: 0 <= j < |lines| ==> Upper(lines[j]) !in {"GROUND", "SPACE"}
  {
    if lines == [] then ""
    else if Upper(lines[0]) in {"GROUND", "SPACE"} then lines[0]
    else
      assert forall j :: 1 <= j < |lines| ==> lines[j] == lines[1..][j - 1];
      Arena(lines[1..])
  }

  /** The arena is the first line that names one, not a later one. */
  lemma {:induction false} ArenaFirst(lines: seq<string>, i: nat)
    requires i < |lines| && Upper(lines[i]) in {"GROUND", "SPACE"}
    requires forall j :: 0 <= j < i ==> Upper(lines[j]) !in {"GROUND", "SPACE"}
    ensures Arena(lines) == lines[i]
  {
    if i > 0 {
      ArenaFirst(lines[1..], i - 1);
    }
  }

  /** The dict `_parse_unit` returns, from its parts. */
  function UnitLayout(name: string, sub: string, arena: string, traits: seq<string>, nums: seq<int>, effect: string)
    : seq<Field>
  {
    [Field("name", Str(name)), Field("subname", Str(sub)), Field("arena", Str(arena)),
     Field("traits", StrList(traits)), Field("cost", Slot(nums, 0)), Field("health", Slot(nums, 1)),
     Field("power", Slot(nums, 2)), Field("effect_text", Str(effect))]
  }

  /** The dict `_parse_upgrade` returns, from its parts. */
  function UpgradeLayout(name: string, sub: string, traits: seq<string>, nums: seq<int>, effect: string): seq<Field>
  {
    [Field("name", Str(name)), Field("subname", Str(sub)), Field("traits", StrList(traits)),
     Field("cost", Slot(nums, 0)), Field("effect_text", Str(effect))]
  }

  /** The dict `_parse_event` returns, from its parts. */
  function EventLayout(name: string, traits: seq<string>, nums: seq<int>, effect: string): seq<Field>
  {
    [Field("name", Str(name)), Field("traits", StrList(traits)), Field("cost", Slot(nums, 0)),
     Field("effect_text", Str(effect))]
  }

  /** The dict `_parse_base` returns, from its parts. */
  function BaseLayout(name: string, traits: seq<string>, nums: seq<int>, effect: string): seq<Field>
  {
    [Field("name", Str(name)), Field("traits", StrList(traits)), Field("health", Slot(nums, 0)),
     Field("effect_text", Str(effect))]
  }

  /** The dict `_parse_leader` returns, from its parts. */
  function LeaderLayout(name: string, sub: string, traits: seq<string>, nums: seq<int>, effect: string): seq<Field>
  {
    [Field("name", Str(name)), Field("subname", Str(sub)), Field("traits", StrList(traits)),
     Field("cost", Slot(nums, 0)), Field("health", Slot(nums, 1)), Field("power", Slot(nums, 2)),
     Field("effect_text", Str(effect))]
  }

  /** The traits `_parse_unit` keeps: the gathered ones, without the kind's own words. */
  function UnitTraits(lines: seq<string>): (r: seq<string>)
    ensures forall j :: 0 <= j < |r| ==> r[j] in RawTraits(lines) && Upper(r[j]) !in {"UNIT", "GROUND", "SPACE"}
  {
    DropKinds(RawTraits(lines), {"UNIT", "GROUND", "SPACE"})
  }

  /** The effect lines of `_parse_unit`. */
  function UnitEffect(lines: seq<string>): (r: seq<string>)
    ensures forall j :: 0 <= j < |r| ==>
      r[j] in lines && !IsMeta(r[j]) && r[j] !in UnitTraits(lines) && r[j] != PickNameAndSub(lines).0
  {
    var nums := Ints(lines);
    var traits := UnitTraits(lines);
    var ns := PickNameAndSub(lines);
    KeepLines(lines, ln =>
      ln !in {"GROUND", "SPACE", "UNIT"} && !IsMeta(ln) && ln !in traits && ln !in {ns.0, ns.1}
      && ln !in [OrBlank(nums, 0), OrBlank(nums, 1), OrBlank(nums, 2)])
  }

  /** The fields `_parse_unit` returns, in order. */
  function UnitRecord(lines: seq<string>): seq<Field>
  {
    var ns := PickNameAndSub(lines);
    UnitLayout(ns.0, ns.1, Arena(lines), UnitTraits(lines), Ints(lines), EffectText(UnitEffect(lines)))
  }

  /** `_parse_unit`. */
  method ParseUnit(lines: seq<string>) returns (fields: seq<Field>)
    ensures fields == UnitRecord(lines)
  {
    var nums := ExtractInts(lines);
    var traits := CollectTraits(lines);
    traits := DropKinds(traits, {"UNIT", "GROUND", "SPACE"});
    var ns := PickNameAndSub(lines);
    var effect := KeepLines(lines, ln =>
      ln !in {"GROUND", "SPACE", "UNIT"} && !IsMeta(ln) && ln !in traits && ln !in {ns.0, ns.1}
      && ln !in [OrBlank(nums, 0), OrBlank(nums, 1), OrBlank(nums, 2)]);
    fields := UnitLayout(ns.0, ns.1, Arena(lines), traits, nums, EffectText(effect));
  }

  /**
   * The traits `_parse_upgrade`, `_parse_event` and `_parse_leader` keep: the
   * gathered ones, without the kind's own words `kinds`.
   */
  function KindTraits(lines: seq<string>, kinds: set<string>): (r: seq<string>)
    ensures forall j :: 0 <= j < |r| ==> r[j] in RawTraits(lines) && Upper(r[j]) !in kinds
    ensures forall t :: t in RawTraits(lines) && t != [] && Upper(t) !in kinds ==> t in r
  {
    DropKinds(RawTraits(lines), kinds)
  }

  /** The effect lines of `_parse_upgrade`. */
  function UpgradeEffect(lines: seq<string>): (r: seq<string>)
    ensures forall j :: 0 <= j < |r| ==>
      r[j] in lines && !IsMeta(r[j]) && IntValue(r[j]).None? && r[j] !in KindTraits(lines, {"UPGRADE"})
      && r[j] != PickNameAndSub(lines).0 && Upper(r[j]) != "UPGRADE"
  {
    var traits := KindTraits(lines, {"UPGRADE"});
    var ns := PickNameAndSub(lines);
    KeepLines(lines, ln =>
      !IsMeta(ln) && ln !in traits && ln !in {ns.0, ns.1} && Upper(ln) != "UPGRADE" && IntValue(ln).None?)
  }

  /** The fields `_parse_upgrade` returns, in order. */
  function UpgradeRecord(lines: seq<string>): seq<Field>
  {
    var ns := PickNameAndSub(lines);
    UpgradeLayout(ns.0, ns.1, KindTraits(lines, {"UPGRADE"}), Ints(lines), EffectText(UpgradeEffect(lines)))
  }

  /** `_parse_upgrade`. */
  method ParseUpgrade(lines: seq<string>) returns (fields: seq<Field>)
    ensures fields == UpgradeRecord(lines)
  {
    var nums := ExtractInts(lines);
    var traits := CollectTraits(lines);
    traits := DropKinds(traits, {"UPGRADE"});
    var ns := PickNameAndSub(lines);
    var effect := KeepLines(lines, ln =>
      !IsMeta(ln) && ln !in traits && ln !in {ns.0, ns.1} && Upper(ln) != "UPGRADE" && IntValue(ln).None?);
    fields := UpgradeLayout(ns.0, ns.1, traits, nums, EffectText(effect));
  }

  /** The effect lines of `_parse_event`. */
  function EventEffect(lines: seq<string>): (r: seq<string>)
    ensures forall j :: 0 <= j < |r| ==>
      r[j] in lines && !IsMeta(r[j]) && IntValue(r[j]).None? && r[j] !in KindTraits(lines, {"EVENT"})
      && r[j] != PickNameAndSub(lines).0 && Upper(r[j]) != "EVENT"
  {
    var traits := KindTraits(lines, {"EVENT"});
    var name := PickNameAndSub(lines).0;
    KeepLines(lines, ln =>
      !IsMeta(ln) && ln !in traits && Upper(ln) != "EVENT" && ln != name && IntValue(ln).None?)
  }

  /** The fields `_parse_event` returns, in order. */
  function EventRecord(lines: seq<string>): seq<Field>
  {
    EventLayout(PickNameAndSub(lines).0, KindTraits(lines, {"EVENT"}), Ints(lines), EffectText(EventEffect(lines)))
  }

  /** `_parse_event`. */
  method ParseEvent(lines: seq<string>) returns (fields: seq<Field>)
    ensures fields == EventRecord(lines)
  {
    var nums := ExtractInts(lines);
    var traits := CollectTraits(lines);
    traits := DropKinds(traits, {"EVENT"});
    var name := PickNameAndSub(lines).0;
    var effect := KeepLines(lines, ln =>
      !IsMeta(ln) && ln !in traits && Upper(ln) != "EVENT" && ln != name && IntValue(ln).None?);
    fields := EventLayout(name, traits, nums, EffectText(effect));
  }

  /** The effect lines of `_parse_base`. */
  function BaseEffect(lines: seq<string>): (r: seq<string>)
    ensures forall j :: 0 <= j < |r| ==>
      r[j] in lines && !IsMeta(r[j]) && IntValue(r[j]).None? && r[j] !in BaseRawTraits(lines)
      && r[j] != PickNameAndSub(lines).0 && Upper(r[j]) != "BASE"
  {
    var traits := BaseRawTraits(lines);
    var name := PickNameAndSub(lines).0;
    KeepLines(lines, ln =>
      !IsMeta(ln) && Upper(ln) != "BASE" && ln !in traits && ln != name && IntValue(ln).None?)
  }

  /** The fields `_parse_base` returns, in order. */
  function BaseRecord(lines: seq<string>): seq<Field>
  {
    BaseLayout(PickNameAndSub(lines).0, BaseRawTraits(lines), Ints(lines), EffectText(BaseEffect(lines)))
  }

  /** `_parse_base`. */
  method ParseBase(lines: seq<string>) returns (fields: seq<Field>)
    ensures fields == BaseRecord(lines)
  {
    var nums := ExtractInts(lines);
    var traits := CollectBaseTraits(lines);
    var name := PickNameAndSub(lines).0;
    var effect := KeepLines(lines, ln =>
      !IsMeta(ln) && Upper(ln) != "BASE" && ln !in traits && ln != name && IntValue(ln).None?);
    fields := BaseLayout(name, traits, nums, EffectText(effect));
  }

  /** The effect lines of `_parse_leader`. */
  function LeaderEffect(lines: seq<string>): (r: seq<string>)
    ensures forall j :: 0 <= j < |r| ==>
      r[j] in lines && !IsMeta(r[j]) && IntValue(r[j]).None? && r[j] !in KindTraits(lines, {"LEADER", "LEADER UNIT"})
      && r[j] != PickNameAndSub(lines).0 && Upper(r[j]) !in {"LEADER", "LEADER UNIT"}
  {
    var traits := KindTraits(lines, {"LEADER", "LEADER UNIT"});
    var ns := PickNameAndSub(lines);
    KeepLines(lines, ln =>
      !IsMeta(ln) && Upper(ln) !in {"LEADER", "LEADER UNIT"} && ln !in traits && ln !in {ns.0, ns.1}
      && IntValue(ln).None?)
  }

  /** The fields `_parse_leader` returns, in order. */
  function LeaderRecord(lines: seq<string>): seq<Field>
  {
    var ns := PickNameAndSub(lines);
    LeaderLayout(ns.0, ns.1, KindTraits(lines, {"LEADER", "LEADER UNIT"}), Ints(lines), EffectText(LeaderEffect(lines)))
  }

  /** `_parse_leader`. */
  method ParseLeader(lines: seq<string>) returns (fields: seq<Field>)
    ensures fields == LeaderRecord(lines)
  {
    var nums := ExtractInts(lines);
    var traits := CollectTraits(lines);
    traits := DropKinds(traits, {"LEADER", "LEADER UNIT"});
    var ns := PickNameAndSub(lines);
    var effect := KeepLines(lines, ln =>
      !IsMeta(ln) && Upper(ln) !in {"LEADER", "LEADER UNIT"} && ln !in traits && ln !in {ns.0, ns.1}
      && IntValue(ln).None?);
    fields := LeaderLayout(ns.0, ns.1, traits, nums, EffectText(effect));
  }

  // ---------------------------------------------------------------------
  // Classification

  /** The key of the outer dict: the lower-cased type for the five kinds, "card" for anything else. */
  function KindKey(t: string): (k: string)
    ensures t in {"Unit", "Upgrade", "Event", "Base", "Leader"} ==> k == Lower(t)
    ensures t !in {"Unit", "Upgrade", "Event", "Base", "Leader"} ==> k == "card"
    ensures k in {"unit", "upgrade", "event", "base", "leader", "card"}
  {
    if t == "Unit" then "unit"
    else if t == "Upgrade" then "upgrade"
    else if t == "Event" then "event"
    else if t == "Base" then "base"
    else if t == "Leader" then "leader"
    else "card"
  }

  /** The fields the detected type's parser adds; the generic fallback keeps the lines. */
  function Details(t: string, lines: seq<string>): seq<Field>
  {
    if t == "Unit" then UnitRecord(lines)
    else if t == "Upgrade" then UpgradeRecord(lines)
    else if t == "Event" then EventRecord(lines)
    else if t == "Base" then BaseRecord(lines)
    else if t == "Leader" then LeaderRecord(lines)
    else [Field("text", StrList(lines))]
  }

  function BaseFields(card: Card, t: string): seq<Field>
  {
    [Field("file_path", Str(card.filePath)), Field("size_bytes", Int(card.sizeBytes)),
     Field("modified_ts", card.modifiedTs), Field("type", Str(t))]
  }

  /**
   * `classify_card`. No parser returns a key of the base dict, so
   * `base.update(...)` appends the parsed fields after the base ones.
   */
  function Classify(card: Card): Value
  {
    var t := DetectType(card);
    Object([Field(KindKey(t), Object(BaseFields(card, t) + Details(t, AsLines(card.text))))])
  }

  /** `classify_card`, running the imperative parsers. */
  method ClassifyCard(card: Card) returns (r: Value)
    ensures r == Classify(card)
  {
    var lines := AsLines(card.text);
    var detected := DetectType(card);
    var details;
    if detected == "Unit" {
      details := ParseUnit(lines);
    } else if detected == "Upgrade" {
      details := ParseUpgrade(lines);
    } else if detected == "Event" {
      details := ParseEvent(lines);
    } else if detected == "Base" {
      details := ParseBase(lines);
    } else if detected == "Leader" {
      details := ParseLeader(lines);
    } else {
      details := [Field("text", StrList(lines))];
    }
    r := Object([Field(KindKey(detected), Object(BaseFields(card, detected) + details))]);
  }

  function Keys(fields: seq<Field>): (keys: seq<string>)
    ensures |keys| == |fields|
    ensures forall j :: 0 <= j < |fields| ==> keys[j] == fields[j].key
  {
    seq(|fields|, j requires 0 <= j < |fields| => fields[j].key)
  }

  /** The keys each parser returns, in order. */
  function DetailKeys(t: string): seq<string>
  {
    if t == "Unit" then ["name", "subname", "arena", "traits", "cost", "health", "power", "effect_text"]
    else if t == "Upgrade" then ["name", "subname", "traits", "cost", "effect_text"]
    else if t == "Event" then ["name", "traits", "cost", "effect_text"]
    else if t == "Base" then ["name", "traits", "health", "effect_text"]
    else if t == "Leader" then ["name", "subname", "traits", "cost", "health", "power", "effect_text"]
    else ["text"]
  }

  lemma UnitLayoutKeys(name: string, sub: string, arena: string, traits: seq<string>, nums: seq<int>, effect: string)
    ensures Keys(UnitLayout(name, sub, arena, traits, nums, effect)) == DetailKeys("Unit")
  {
  }

  lemma UpgradeLayoutKeys(name: string, sub: string, traits: seq<string>, nums: seq<int>, effect: string)
    ensures Keys(UpgradeLayout(name, sub, traits, nums, effect)) == DetailKeys("Upgrade")
  {
  }

  lemma EventLayoutKeys(name: string, traits: seq<string>, nums: seq<int>, effect: string)
    ensures Keys(EventLayout(name, traits, nums, effect)) == DetailKeys("Event")
  {
  }

  lemma BaseLayoutKeys(name: string, traits: seq<string>, nums: seq<int>, effect: string)
    ensures Keys(BaseLayout(name, traits, nums, effect)) == DetailKeys("Base")
  {
  }

  lemma LeaderLayoutKeys(name: string, sub: string, traits: seq<string>, nums: seq<int>, effect: string)
    ensures Keys(LeaderLayout(name, sub, traits, nums, effect)) == DetailKeys("Leader")
  {
  }

  lemma DetailsKeys(t: string, lines: seq<string>)
    ensures Keys(Details(t, lines)) == DetailKeys(t)
  {
    var ns := PickNameAndSub(lines);
    var nums := Ints(lines);
    if t == "Unit" {
      UnitLayoutKeys(ns.0, ns.1, Arena(lines), UnitTraits(lines), nums, EffectText(UnitEffect(lines)));
    } else if t == "Upgrade" {
      UpgradeLayoutKeys(ns.0, ns.1, KindTraits(lines, {"UPGRADE"}), nums, EffectText(UpgradeEffect(lines)));
    } else if t == "Event" {
      EventLayoutKeys(ns.0, KindTraits(lines, {"EVENT"}), nums, EffectText(EventEffect(lines)));
    } else if t == "Base" {
      BaseLayoutKeys(ns.0, BaseRawTraits(lines), nums, EffectText(BaseEffect(lines)));
    } else if t == "Leader" {
      LeaderLayoutKeys(ns.0, ns.1, KindTraits(lines, {"LEADER", "LEADER UNIT"}), nums, EffectText(LeaderEffect(lines)));
    } else {
      assert Keys([Field("text", StrList(lines))]) == ["text"];
    }
  }

  /** The keys of the inner dict, for each detected type. */
  function InnerKeys(t: string): seq<string>
  {
    ["file_path", "size_bytes", "modified_ts", "type"] + DetailKeys(t)
  }

  predicate NoRepeats(keys: seq<string>)
  {
    forall i, j :: 0 <= i < j < |keys| ==> keys[i] != keys[j]
  }

  lemma UnitKeysDistinct()
    ensures NoRepeats(["file_path", "size_bytes", "modified_ts", "type", "name", "subname", "arena", "traits", "cost", "health", "power", "effect_text"])
  {
  }

  lemma UpgradeKeysDistinct()
    ensures NoRepeats(["file_path", "size_bytes", "modified_ts", "type", "name", "subname", "traits", "cost", "effect_text"])
  {
  }

  lemma EventKeysDistinct()
    ensures NoRepeats(["file_path", "size_bytes", "modified_ts", "type", "name", "traits", "cost", "effect_text"])
  {
  }

  lemma BaseKeysDistinct()
    ensures NoRepeats(["file_path", "size_bytes", "modified_ts", "type", "name", "traits", "health", "effect_text"])
  {
  }

  lemma LeaderKeysDistinct()
    ensures NoRepeats(["file_path", "size_bytes", "modified_ts", "type", "name", "subname", "traits", "cost", "health", "power", "effect_text"])
  {
  }

  lemma InnerKeysDistinct(t: string)
    ensures NoRepeats(InnerKeys(t))
  {
    if t == "Unit" {
      UnitKeysDistinct();
    } else if t == "Upgrade" {
      UpgradeKeysDistinct();
    } else if t == "Event" {
      EventKeysDistinct();
    } else if t == "Base" {
      BaseKeysDistinct();
    } else if t == "Leader" {
      LeaderKeysDistinct();
    } else {
      assert InnerKeys(t) == ["file_path", "size_bytes", "modified_ts", "type", "text"];
    }
  }

  /** The inner dict of `classify_card`. */
  function Inner(card: Card): seq<Field>
  {
    var t := DetectType(card);
    BaseFields(card, t) + Details(t, AsLines(card.text))
  }

  lemma BaseFieldsKeys(card: Card, t: string, details: seq<Field>)
    ensures Keys(BaseFields(card, t) + details) == ["file_path", "size_bytes", "modified_ts", "type"] + Keys(details)
  {
  }

  /** Lookup finds the base fields before anything appended after them. */
  lemma BaseFieldsGet(card: Card, t: string, details: seq<Field>)
    ensures Get(BaseFields(card, t) + details, "type") == Some(Str(t))
    ensures Get(BaseFields(card, t) + details, "file_path") == Some(Str(card.filePath))
    ensures Get(BaseFields(card, t) + details, "size_bytes") == Some(Int(card.sizeBytes))
    ensures Get(BaseFields(card, t) + details, "modified_ts") == Some(card.modifiedTs)
  {
    var f0 := BaseFields(card, t) + details;
    var f1 := f0[1..];
    var f2 := f1[1..];
    var f3 := f2[1..];
    assert f0[0] == Field("file_path", Str(card.filePath));
    assert f1[0] == Field("size_bytes", Int(card.sizeBytes));
    assert f2[0] == Field("modified_ts", card.modifiedTs);
    assert f3[0] == Field("type", Str(t));
    assert Get(f2, "type") == Get(f3, "type");
    assert Get(f1, "type") == Get(f2, "type");
    assert Get(f1, "modified_ts") == Get(f2, "modified_ts");
  }

  /** The inner dict has distinct keys, so the parsed fields never overwrite a base field. */
  lemma InnerDistinct(card: Card)
    ensures DistinctKeys(Inner(card))
  {
    var t := DetectType(card);
    var d := Details(t, AsLines(card.text));
    DetailsKeys(t, AsLines(card.text));
    BaseFieldsKeys(card, t, d);
    InnerKeysDistinct(t);
    var keys := Keys(Inner(card));
    assert keys == InnerKeys(t);
    forall i, j | 0 <= i < j < |Inner(card)| ensures Inner(card)[i].key != Inner(card)[j].key {
      assert keys[i] != keys[j];
    }
  }

  /**
   * `classify_card` returns a one-key dict named after the detected type; the
   * inner dict has distinct keys, records the type and the card's file
   * fields, and the generic fallback keeps the lines as its text.
   */
  lemma ClassifyShape(card: Card)
    ensures Classify(card) == Object([Field(KindKey(DetectType(card)), Object(Inner(card)))])
    ensures DistinctKeys(Inner(card))
    ensures Get(Inner(card), "type") == Some(Str(DetectType(card)))
    ensures Get(Inner(card), "file_path") == Some(Str(card.filePath))
    ensures Get(Inner(card), "size_bytes") == Some(Int(card.sizeBytes))
    ensures Get(Inner(card), "modified_ts") == Some(card.modifiedTs)
    ensures KindKey(DetectType(card)) == "card" ==>
      Inner(card) == BaseFields(card, DetectType(card)) + [Field("text", StrList(AsLines(card.text)))]
  {
    InnerDistinct(card);
    var t := DetectType(card);
    var lines := AsLines(card.text);
    BaseFieldsGet(card, t, Details(t, lines));
    if KindKey(t) == "card" {
      FallbackDetails(t, lines);
    }
  }

  /** Any other type keeps the lines as the card's text. */
  lemma FallbackDetails(t: string, lines: seq<string>)
    requires KindKey(t) == "card"
    ensures Details(t, lines) == [Field("text", StrList(lines))]
  {
  }

  lemma UnitLayoutCost(name: string, sub: string, arena: string, traits: seq<string>, nums: seq<int>, effect: string)
    ensures Get(UnitLayout(name, sub, arena, traits, nums, effect), "cost") == Some(Slot(nums, 0))
  {
    var f := UnitLayout(name, sub, arena, traits, nums, effect);
    UnitLayoutKeys(name, sub, arena, traits, nums, effect);
    var keys := Keys(f);
    assert keys[0] != "cost" && keys[1] != "cost" && keys[2] != "cost" && keys[3] != "cost";
    GetAt(f, 4, "cost");
  }

  lemma UnitLayoutHealth(name: string, sub: string, arena: string, traits: seq<string>, nums: seq<int>, effect: string)
    ensures Get(UnitLayout(name, sub, arena, traits, nums, effect), "health") == Some(Slot(nums, 1))
  {
    var f := UnitLayout(name, sub, arena, traits, nums, effect);
    UnitLayoutKeys(name, sub, arena, traits, nums, effect);
    var keys := Keys(f);
    assert keys[0] != "health" && keys[1] != "health" && keys[2] != "health" && keys[3] != "health";
    assert keys[4] != "health";
    GetAt(f, 5, "health");
  }

  lemma UnitLayoutPower(name: string, sub: string, arena: string, traits: seq<string>, nums: seq<int>, effect: string)
    ensures Get(UnitLayout(name, sub, arena, traits, nums, effect), "power") == Some(Slot(nums, 2))
  {
    var f := UnitLayout(name, sub, arena, traits, nums, effect);
    UnitLayoutKeys(name, sub, arena, traits, nums, effect);
    var keys := Keys(f);
    assert keys[0] != "power" && keys[1] != "power" && keys[2] != "power" && keys[3] != "power";
    assert keys[4] != "power" && keys[5] != "power";
    GetAt(f, 6, "power");
  }

  lemma LeaderLayoutCost(name: string, sub: string, traits: seq<string>, nums: seq<int>, effect: string)
    ensures Get(LeaderLayout(name, sub, traits, nums, effect), "cost") == Some(Slot(nums, 0))
  {
    var f := LeaderLayout(name, sub, traits, nums, effect);
    LeaderLayoutKeys(name, sub, traits, nums, effect);
    var keys := Keys(f);
    assert keys[0] != "cost" && keys[1] != "cost" && keys[2] != "cost";
    GetAt(f, 3, "cost");
  }

  lemma LeaderLayoutHealth(name: string, sub: string, traits: seq<string>, nums: seq<int>, effect: string)
    ensures Get(LeaderLayout(name, sub, traits, nums, effect), "health") == Some(Slot(nums, 1))
  {
    var f := LeaderLayout(name, sub, traits, nums, effect);
    LeaderLayoutKeys(name, sub, traits, nums, effect);
    var keys := Keys(f);
    assert keys[0] != "health" && keys[1] != "health" && keys[2] != "health" && keys[3] != "health";
    GetAt(f, 4, "health");
  }

  lemma LeaderLayoutPower(name: string, sub: string, traits: seq<string>, nums: seq<int>, effect: string)
    ensures Get(LeaderLayout(name, sub, traits, nums, effect), "power") == Some(Slot(nums, 2))
  {
    var f := LeaderLayout(name, sub, traits, nums, effect);
    LeaderLayoutKeys(name, sub, traits, nums, effect);
    var keys := Keys(f);
    assert keys[0] != "power" && keys[1] != "power" && keys[2] != "power" && keys[3] != "power";
    assert keys[4] != "power";
    GetAt(f, 5, "power");
  }

  lemma UpgradeLayoutCost(name: string, sub: string, traits: seq<string>, nums: seq<int>, effect: string)
    ensures Get(UpgradeLayout(name, sub, traits, nums, effect), "cost") == Some(Slot(nums, 0))
  {
    var f := UpgradeLayout(name, sub, traits, nums, effect);
    UpgradeLayoutKeys(name, sub, traits, nums, effect);
    var keys := Keys(f);
    assert keys[0] != "cost" && keys[1] != "cost" && keys[2] != "cost";
    GetAt(f, 3, "cost");
  }

  lemma EventLayoutCost(name: string, traits: seq<string>, nums: seq<int>, effect: string)
    ensures Get(EventLayout(name, traits, nums, effect), "cost") == Some(Slot(nums, 0))
  {
    var f := EventLayout(name, traits, nums, effect);
    EventLayoutKeys(name, traits, nums, effect);
    var keys := Keys(f);
    assert keys[0] != "cost" && keys[1] != "cost";
    GetAt(f, 2, "cost");
  }

  lemma BaseLayoutHealth(name: string, traits: seq<string>, nums: seq<int>, effect: string)
    ensures Get(BaseLayout(name, traits, nums, effect), "health") == Some(Slot(nums, 0))
  {
    var f := BaseLayout(name, traits, nums, effect);
    BaseLayoutKeys(name, traits, nums, effect);
    var keys := Keys(f);
    assert keys[0] != "health" && keys[1] != "health";
    GetAt(f, 2, "health");
  }

  /**
   * A unit's cost, health and power are its first three integers, in line
   * order, each None when there are fewer.
   */
  lemma UnitSlots(lines: seq<string>)
    ensures Get(UnitRecord(lines), "cost") == Some(Slot(Ints(lines), 0))
    ensures Get(UnitRecord(lines), "health") == Some(Slot(Ints(lines), 1))
    ensures Get(UnitRecord(lines), "power") == Some(Slot(Ints(lines), 2))
  {
    var ns := PickNameAndSub(lines);
    var a, t, e := Arena(lines), UnitTraits(lines), EffectText(UnitEffect(lines));
    UnitLayoutCost(ns.0, ns.1, a, t, Ints(lines), e);
    UnitLayoutHealth(ns.0, ns.1, a, t, Ints(lines), e);
    UnitLayoutPower(ns.0, ns.1, a, t, Ints(lines), e);
  }

  /** A leader's cost, health and power are its first three integers, each None when there are fewer. */
  lemma LeaderSlots(lines: seq<string>)
    ensures Get(LeaderRecord(lines), "cost") == Some(Slot(Ints(lines), 0))
    ensures Get(LeaderRecord(lines), "health") == Some(Slot(Ints(lines), 1))
    ensures Get(LeaderRecord(lines), "power") == Some(Slot(Ints(lines), 2))
  {
    var ns := PickNameAndSub(lines);
    var t, e := KindTraits(lines, {"LEADER", "LEADER UNIT"}), EffectText(LeaderEffect(lines));
    LeaderLayoutCost(ns.0, ns.1, t, Ints(lines), e);
    LeaderLayoutHealth(ns.0, ns.1, t, Ints(lines), e);
    LeaderLayoutPower(ns.0, ns.1, t, Ints(lines), e);
  }

  /** An upgrade takes its cost from the first integer, None when there is none. */
  lemma UpgradeSlot(lines: seq<string>)
    ensures Get(UpgradeRecord(lines), "cost") == Some(Slot(Ints(lines), 0))
  {
    var ns := PickNameAndSub(lines);
    UpgradeLayoutCost(ns.0, ns.1, KindTraits(lines, {"UPGRADE"}), Ints(lines), EffectText(UpgradeEffect(lines)));
  }

  /** An event takes its cost from the first integer, None when there is none. */
  lemma EventSlot(lines: seq<string>)
    ensures Get(EventRecord(lines), "cost") == Some(Slot(Ints(lines), 0))
  {
    EventLayoutCost(PickNameAndSub(lines).0, KindTraits(lines, {"EVENT"}), Ints(lines), EffectText(EventEffect(lines)));
  }

  /** A base takes its health from the first integer, None when there is none. */
  lemma BaseSlot(lines: seq<string>)
    ensures Get(BaseRecord(lines), "health") == Some(Slot(Ints(lines), 0))
  {
    BaseLayoutHealth(PickNameAndSub(lines).0, BaseRawTraits(lines), Ints(lines), EffectText(BaseEffect(lines)));
  }

  /** Every trait of a trait line is gathered. */
  lemma RawTraitsHas(lines: seq<string>, k: nat, t: string)
    requires k < |lines| && TraitLine(lines[k]) && t in SplitTraits(lines[k])
    ensures t in RawTraits(lines)
  {
    var pieces := TraitPieces(lines);
    assert pieces[k] == LineTraits(lines[k]);
    ConcatHas(pieces, k, t);
  }

  /**
   * An upper-case name without a bullet is also one of the unit's traits, so
   * the traits of a card whose name is printed in capitals include the name.
   */
  lemma UpperNameIsTrait(lines: seq<string>, name: string)
    requires Clean(lines) && name == PickNameAndSub(lines).0
    requires IsUpper(name) && Bullet !in name && Upper(name) !in {"UNIT", "GROUND", "SPACE"}
    ensures name in UnitTraits(lines)
  {
    NameAndSub(lines);
    var k := LastCandidate(lines);
    assert k >= 0;
    assert name == lines[k];
    assert name != [] && Stripped(name);
    StripOfStripped(name);
    assert Strip(name) == name;
    SplitTraitsWithoutBullet(name);
    RawTraitsHas(lines, k, name);
    UnitTraitsKeep(lines, name);
  }

  lemma UnitTraitsKeep(lines: seq<string>, t: string)
    requires t != [] && Upper(t) !in {"UNIT", "GROUND", "SPACE"}
    requires t in RawTraits(lines)
    ensures t in UnitTraits(lines)
  {
  }

  lemma IntToStringChars(n: int)
    ensures forall j :: 0 <= j < |IntToString(n)| ==> IntToString(n)[j] == '-' || IsDigit(IntToString(n)[j])
  {
    var d := NatToString(if n < 0 then -n else n);
    if n < 0 {
      assert forall j :: 1 <= j < |IntToString(n)| ==> IntToString(n)[j] == d[j - 1];
    }
  }

  lemma OrBlankAvoids(nums: seq<int>, i: nat, c: char)
    requires c != '-' && !IsDigit(c)
    ensures c !in OrBlank(nums, i)
  {
    if i < |nums| && nums[i] != 0 {
      IntToStringChars(nums[i]);
    }
  }

  /** A line passing every test of the unit's effect filter is kept. */
  lemma UnitEffectKeeps(lines: seq<string>, ln: string)
    requires ln in lines && ln !in {"GROUND", "SPACE", "UNIT"} && !IsMeta(ln) && ln !in UnitTraits(lines)
    requires ln != PickNameAndSub(lines).0 && ln != PickNameAndSub(lines).1
    requires ln !in [OrBlank(Ints(lines), 0), OrBlank(Ints(lines), 1), OrBlank(Ints(lines), 2)]
    ensures ln in UnitEffect(lines)
  {
  }

  /** No unit trait holds a bullet. */
  lemma UnitTraitsNoBullet(lines: seq<string>)
    ensures forall j :: 0 <= j < |UnitTraits(lines)| ==> Bullet !in UnitTraits(lines)[j]
  {
    RawTraitsClean(lines);
    var r := UnitTraits(lines);
    forall j | 0 <= j < |r| ensures Bullet !in r[j] {
      assert r[j] in RawTraits(lines);
    }
  }

  /**
   * A line with a bullet that is not the name or subname stays in a unit's
   * effect text: the traits split from it never contain the bullet.
   */
  lemma UnitKeepsBulletLine(lines: seq<string>, ln: string)
    requires ln in lines && Bullet in ln && !IsMeta(ln)
    requires ln != PickNameAndSub(lines).0 && ln != PickNameAndSub(lines).1
    ensures ln in UnitEffect(lines)
  {
    UnitTraitsNoBullet(lines);
    BulletLineNotNumber(Ints(lines), ln);
    UnitEffectKeeps(lines, ln);
  }

  /** A line with a bullet is neither a kind word nor a printed number. */
  lemma BulletLineNotNumber(nums: seq<int>, ln: string)
    requires Bullet in ln
    ensures ln !in {"GROUND", "SPACE", "UNIT"}
    ensures ln !in [OrBlank(nums, 0), OrBlank(nums, 1), OrBlank(nums, 2)]
  {
    OrBlankAvoids(nums, 0, Bullet);
    OrBlankAvoids(nums, 1, Bullet);
    OrBlankAvoids(nums, 2, Bullet);
  }

  lemma NatToStringZero(n: nat)
    requires NatToString(n) == "0"
    ensures n == 0
  {
  }

  lemma OrBlankNotZero(nums: seq<int>, i: nat)
    ensures OrBlank(nums, i) != "0"
  {
    if i < |nums| && nums[i] != 0 {
      var v := nums[i];
      if v < 0 {
        assert IntToString(v)[0] == '-';
      } else if IntToString(v) == "0" {
        NatToStringZero(v);
      }
    }
  }

  lemma ZeroLine()
    ensures !IsMeta("0") && !NameCandidate("0")
  {
    IntValueOfString(0);
    assert IntToString(0) == "0";
    assert Ints(["0"]) == [0] by {
      assert ["0"][..0] == [];
    }
    assert Lower("0") == "0";
    assert !Contains("0", ".psd");
  }

  /** Neither the name nor the subname is ever an integer line such as "0". */
  lemma NameNotZero(lines: seq<string>)
    ensures PickNameAndSub(lines).0 != "0" && PickNameAndSub(lines).1 != "0"
  {
    ZeroLine();
    NameAndSub(lines);
  }

  /**
   * A unit filters its numbers through `str(x or "")`, which gives "" for
   * zero; so a line "0" stays in a unit's effect text, unlike every other
   * kind's, which drops all integer lines.
   */
  lemma UnitKeepsZero(lines: seq<string>)
    requires "0" in lines && "0" !in UnitTraits(lines)
    ensures "0" in UnitEffect(lines)
  {
    var nums := Ints(lines);
    assert "0" !in [OrBlank(nums, 0), OrBlank(nums, 1), OrBlank(nums, 2)] by {
      OrBlankNotZero(nums, 0);
      OrBlankNotZero(nums, 1);
      OrBlankNotZero(nums, 2);
    }
    assert !IsMeta("0") by {
      ZeroLine();
    }
    assert "0" != PickNameAndSub(lines).0 && "0" != PickNameAndSub(lines).1 by {
      NameNotZero(lines);
    }
    assert "0" !in {"GROUND", "SPACE", "UNIT"};
    UnitEffectKeeps(lines, "0");
  }
}
