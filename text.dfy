/**
 * The handful of Python `str` operations the application relies on:
 * `isspace`, `strip`, `lower`/`upper`/`isupper` (ASCII letters only),
 * `split()`, `splitlines()`, `" ".join`, `in`, `find` and `str(int)`.
 */
module Text {

  /** Python's `str.isspace` for one character. */
  predicate IsSpace(c: char)
  {
    c == ' ' || '\t' <= c <= '\r' || '\U{1c}' <= c <= '\U{1f}' || c == '\U{85}' || c == '\U{a0}'
    || c == '\U{1680}' || '\U{2000}' <= c <= '\U{200a}' || c == '\U{2028}' || c == '\U{2029}'
    || c == '\U{202f}' || c == '\U{205f}' || c == '\U{3000}'
  }

  /** The characters at which `str.splitlines` breaks a line. */
  predicate IsLineBreak(c: char)
  {
    '\n' <= c <= '\r' || '\U{1c}' <= c <= '\U{1e}' || c == '\U{85}' || c == '\U{2028}' || c == '\U{2029}'
  }

  predicate IsDigit(c: char) { '0' <= c <= '9' }

  predicate IsLowerChar(c: char) { 'a' <= c <= 'z' }

  predicate IsUpperChar(c: char) { 'A' <= c <= 'Z' }

  function LowerChar(c: char): char
  {
    if IsUpperChar(c) then (c as int + 32) as char else c
  }

  function UpperChar(c: char): char
  {
    if IsLowerChar(c) then (c as int - 32) as char else c
  }

  function Lower(s: string): (r: string)
    ensures |r| == |s|
  {
    seq(|s|, i requires 0 <= i < |s| => LowerChar(s[i]))
  }

  function Upper(s: string): (r: string)
    ensures |r| == |s|
  {
    seq(|s|, i requires 0 <= i < |s| => UpperChar(s[i]))
  }

  /** Lower-casing ignores any earlier change of case. */
  lemma LowerOfCased(s: string)
    ensures Lower(Upper(s)) == Lower(s)
    ensures Lower(Lower(s)) == Lower(s)
  {
  }

  /** Python's `str.isupper`: some cased character, and no lower-case one. */
  predicate IsUpper(s: string)
  {
    (exists i :: 0 <= i < |s| && IsUpperChar(s[i])) && forall i :: 0 <= i < |s| ==> !IsLowerChar(s[i])
  }

  /** `s` has no whitespace at either end: what `strip` produces. */
  predicate Stripped(s: string)
  {
    s == [] || (!IsSpace(s[0]) && !IsSpace(s[|s| - 1]))
  }

  function StripLeft(s: string): (r: string)
    ensures |r| <= |s| && r == s[|s| - |r|..]
    ensures r == [] || !IsSpace(r[0])
    ensures forall i :: 0 <= i < |s| - |r| ==> IsSpace(s[i])
  {
    if s != [] && IsSpace(s[0]) then StripLeft(s[1..]) else s
  }

  function StripRight(s: string): (r: string)
    ensures |r| <= |s| && r == s[..|r|]
    ensures r == [] || !IsSpace(r[|r| - 1])
    ensures forall i :: |r| <= i < |s| ==> IsSpace(s[i])
  {
    if s != [] && IsSpace(s[|s| - 1]) then StripRight(s[..|s| - 1]) else s
  }

  /** Python's `str.strip()` with no argument. */
  function Strip(s: string): string
  {
    StripRight(StripLeft(s))
  }

  /** What `strip` returns has no whitespace at either end. */
  lemma StripIsStripped(s: string)
    ensures Stripped(Strip(s)) && |Strip(s)| <= |s|
  {
    var l := StripLeft(s);
    var r := StripRight(l);
    if r != [] {
      assert r[0] == l[0];
    }
  }

  /** `strip` removes nothing from a string without whitespace at its ends. */
  lemma StripOfStripped(s: string)
    requires Stripped(s)
    ensures Strip(s) == s
  {
  }

  /** `strip` gives the empty string exactly when every character is whitespace. */
  lemma {:induction false} StripEmpty(s: string)
    ensures Strip(s) == [] <==> forall i :: 0 <= i < |s| ==> IsSpace(s[i])
  {
    if s != [] && IsSpace(s[0]) {
      StripEmpty(s[1..]);
      assert forall i :: 1 <= i < |s| ==> s[i] == s[1..][i - 1];
    }
  }

  /** Every character of the stripped string occurs in the original. */
  lemma StripChars(s: string, c: char)
    requires c in Strip(s)
    ensures c in s
  {
    var l := StripLeft(s);
    assert c in l[..|Strip(s)|];
    assert c in s[|s| - |l|..];
  }

  /** Python's `str.join`. */
  function Join(sep: string, parts: seq<string>): string
  {
    if parts == [] then "" else if |parts| == 1 then parts[0] else parts[0] + sep + Join(sep, parts[1..])
  }

  /** A token of `str.split()`: non-empty and free of whitespace. */
  predicate IsWord(w: string)
  {
    w != [] && forall i :: 0 <= i < |w| ==> !IsSpace(w[i])
  }

  /** Every string of `ws` is a word. */
  predicate Worded(ws: seq<string>)
  {
    forall j :: 0 <= j < |ws| ==> IsWord(ws[j])
  }

  /** Length of the run of non-whitespace characters that starts `s`. */
  function WordLen(s: string): (k: nat)
    ensures k <= |s|
    ensures forall i :: 0 <= i < k ==> !IsSpace(s[i])
    ensures k < |s| ==> IsSpace(s[k])
  {
    if s == [] || IsSpace(s[0]) then 0 else 1 + WordLen(s[1..])
  }

  /** Python's `str.split()` with no argument: the maximal runs of non-whitespace. */
  function Words(s: string): (ws: seq<string>)
    ensures Worded(ws)
    decreases |s|
  {
    var t := StripLeft(s);
    if t == [] then []
    else
      var k := WordLen(t);
      assert k > 0 by {
        assert !IsSpace(t[0]);
      }
      var w := t[..k];
      var rest := Words(t[k..]);
      assert IsWord(w) by {
        assert forall i :: 0 <= i < k ==> w[i] == t[i];
      }
      WordCons(w, rest);
      [w] + rest
  }

  lemma WordCons(w: string, rest: seq<string>)
    requires IsWord(w) && Worded(rest)
    ensures Worded([w] + rest)
  {
    var r := [w] + rest;
    forall j | 0 <= j < |r| ensures IsWord(r[j]) {
      if j > 0 {
        assert r[j] == rest[j - 1];
      }
    }
  }

  lemma {:induction false} WordLenOfWord(w: string, rest: string)
    requires forall i :: 0 <= i < |w| ==> !IsSpace(w[i])
    requires rest == [] || IsSpace(rest[0])
    ensures WordLen(w + rest) == |w|
  {
    if w != [] {
      assert (w + rest)[1..] == w[1..] + rest;
      WordLenOfWord(w[1..], rest);
    } else {
      assert w + rest == rest;
    }
  }

  lemma StripLeftSpace(s: string)
    ensures StripLeft(" " + s) == StripLeft(s)
  {
    assert (" " + s)[1..] == s;
  }

  /** A word followed by a space and more text splits off as the first word. */
  lemma WordsCons(w: string, rest: string)
    requires IsWord(w)
    ensures Words(w + (" " + rest)) == [w] + Words(rest)
  {
    var s := w + (" " + rest);
    assert StripLeft(s) == s;
    WordLenOfWord(w, " " + rest);
    assert s[..|w|] == w;
    assert s[|w|..] == " " + rest;
    StripLeftSpace(rest);
    assert Words(" " + rest) == Words(rest);
  }

  /** Splitting words joined by single spaces gives the words back. */
  lemma {:induction false} WordsOfJoin(ws: seq<string>)
    requires Worded(ws)
    ensures Words(Join(" ", ws)) == ws
  {
    if ws == [] {
    } else if |ws| == 1 {
      var w := ws[0];
      assert IsWord(w);
      assert Join(" ", ws) == w;
      assert Words(w) == [w] by {
        assert w + [] == w;
        WordLenOfWord(w, []);
        assert StripLeft(w) == w;
        assert w[..|w|] == w;
        assert w[|w|..] == [];
      }
    } else {
      var w := ws[0];
      var rest := ws[1..];
      assert ws == [w] + rest;
      assert IsWord(w);
      assert Worded(rest) by {
        forall j | 0 <= j < |rest| ensures IsWord(rest[j]) {
          assert rest[j] == ws[j + 1];
        }
      }
      assert Words(Join(" ", ws)) == [w] + Words(Join(" ", rest)) by {
        assert Join(" ", ws) == w + (" " + Join(" ", rest));
        WordsCons(w, Join(" ", rest));
      }
      assert Words(Join(" ", rest)) == rest by {
        WordsOfJoin(rest);
      }
    }
  }

  /** No whitespace at either end and never two whitespace characters in a row. */
  predicate SingleSpaced(s: string)
  {
    Stripped(s) && forall i :: 0 <= i < |s| - 1 ==> !(IsSpace(s[i]) && IsSpace(s[i + 1]))
  }

  /** Words joined by single spaces are single-spaced and start with the first word. */
  lemma {:induction false} JoinWordsSingleSpaced(ws: seq<string>)
    requires Worded(ws)
    ensures SingleSpaced(Join(" ", ws))
    ensures ws != [] ==> Join(" ", ws) != [] && Join(" ", ws)[0] == ws[0][0]
  {
    if |ws| > 1 {
      var w := ws[0];
      var rest := Join(" ", ws[1..]);
      JoinWordsSingleSpaced(ws[1..]);
      var s := w + " " + rest;
      assert Join(" ", ws) == s;
      forall i | 0 <= i < |s| - 1
        ensures !(IsSpace(s[i]) && IsSpace(s[i + 1]))
      {
        if i < |w| - 1 {
          assert s[i] == w[i] && s[i + 1] == w[i + 1];
        } else if i == |w| - 1 {
          assert s[i] == w[i];
        } else if i == |w| {
          assert s[i + 1] == rest[0];
        } else {
          assert s[i] == rest[i - |w| - 1] && s[i + 1] == rest[i - |w|];
        }
      }
      assert s[|s| - 1] == rest[|rest| - 1];
    }
  }

  /** Index of the first line break in `s`, or `|s|` when there is none. */
  function FirstBreak(s: string): (k: nat)
    ensures k <= |s|
    ensures forall i :: 0 <= i < k ==> !IsLineBreak(s[i])
    ensures k < |s| ==> IsLineBreak(s[k])
  {
    if s == [] || IsLineBreak(s[0]) then 0 else 1 + FirstBreak(s[1..])
  }

  /**
   * `str.splitlines`, except that "\r\n" counts as two breaks and a trailing
   * break yields a final empty line; both differences produce only lines that
   * are blank, which every caller here drops.
   */
  function SplitLines(s: string): (lines: seq<string>)
    ensures forall j, i :: 0 <= j < |lines| && 0 <= i < |lines[j]| ==> !IsLineBreak(lines[j][i])
    decreases |s|
  {
    var k := FirstBreak(s);
    if k == |s| then [s] else [s[..k]] + SplitLines(s[k + 1..])
  }

  /** Python's `needle in hay` for strings. */
  predicate Contains(hay: string, needle: string)
    decreases |hay|
  {
    needle <= hay || (hay != [] && Contains(hay[1..], needle))
  }

  /** A string that contains a needle contains every prefix of it. */
  lemma {:induction false} ContainsPrefix(hay: string, needle: string, pre: string)
    requires pre <= needle && Contains(hay, needle)
    ensures Contains(hay, pre)
    decreases |hay|
  {
    if !(needle <= hay) {
      ContainsPrefix(hay[1..], needle, pre);
    }
  }

  lemma {:induction false} ContainsAt(hay: string, needle: string, i: nat)
    requires i <= |hay| && needle <= hay[i..]
    ensures Contains(hay, needle)
  {
    if i > 0 {
      assert hay[1..][i - 1..] == hay[i..];
      ContainsAt(hay[1..], needle, i - 1);
    }
  }

  /** Python's `hay.find(needle)`: the first index of an occurrence, or -1. */
  function Find(hay: string, needle: string): (r: int)
    ensures -1 <= r <= |hay|
    ensures r == -1 <==> !Contains(hay, needle)
    ensures r >= 0 ==> r + |needle| <= |hay| && needle <= hay[r..]
    ensures r >= 0 ==> forall j :: 0 <= j < r ==> !(needle <= hay[j..])
    decreases |hay|
  {
    if needle <= hay then 0
    else if hay == [] then -1
    else
      var k := Find(hay[1..], needle);
      if k < 0 then -1
      else
        assert forall j :: 1 <= j <= |hay| ==> hay[j..] == hay[1..][j - 1..];
        k + 1
  }

  /** Python's `s.replace(a, b)` for single characters. */
  function ReplaceChar(s: string, a: char, b: char): (r: string)
    ensures |r| == |s|
  {
    seq(|s|, i requires 0 <= i < |s| => if s[i] == a then b else s[i])
  }

  function DigitChar(d: nat): char
    requires d < 10
  {
    ('0' as int + d) as char
  }

  function DigitValue(c: char): nat
    requires IsDigit(c)
  {
    c as int - '0' as int
  }

  predicate AllDigits(s: string)
  {
    forall i :: 0 <= i < |s| ==> IsDigit(s[i])
  }

  /** Python's `str(n)` for a natural number. */
  function NatToString(n: nat): (s: string)
    ensures s != [] && AllDigits(s)
  {
    if n < 10 then [DigitChar(n)] else NatToString(n / 10) + [DigitChar(n % 10)]
  }

  /** Python's `str(i)` for an integer. */
  function IntToString(i: int): string
  {
    if i < 0 then "-" + NatToString(-i) else NatToString(i)
  }

  /** Python's `int(s)` for a string of decimal digits. */
  function DigitsValue(s: string): nat
    requires AllDigits(s)
  {
    if s == [] then 0 else DigitsValue(s[..|s| - 1]) * 10 + DigitValue(s[|s| - 1])
  }

  /** Reading back the digits `str` writes gives the number. */
  lemma {:induction false} DigitsOfNatToString(n: nat)
    ensures DigitsValue(NatToString(n)) == n
  {
    if n >= 10 {
      var s := NatToString(n);
      assert s[..|s| - 1] == NatToString(n / 10);
      DigitsOfNatToString(n / 10);
    }
  }

  /** Index of the last `c` in `s`, or -1. */
  function LastIndex(s: string, c: char): (k: int)
    ensures -1 <= k < |s|
    ensures k >= 0 ==> s[k] == c
    ensures forall j :: k < j < |s| ==> s[j] != c
    decreases |s|
  {
    if s == [] then -1
    else if s[|s| - 1] == c then |s| - 1
    else LastIndex(s[..|s| - 1], c)
  }

  /**
   * `PurePosixPath(p).name`: the last component of the path, where empty
   * components and "." components do not count; "" when there is none.
   */
  function BaseName(p: string): (name: string)
    ensures '/' !in name && name != "."
    decreases |p|
  {
    var k := LastIndex(p, '/');
    var tail := p[k + 1..];
    if tail != "" && tail != "." then
      assert forall c :: c in tail ==> exists j :: k < j < |p| && p[j] == c;
      tail
    else if k < 0 then ""
    else BaseName(p[..k])
  }

  /** The name of a file in a directory is the name it was given. */
  lemma BaseNameOfJoin(dir: string, name: string)
    requires '/' !in name && name != "" && name != "."
    ensures BaseName(dir + "/" + name) == name
    ensures BaseName(name) == name
  {
    var p := dir + "/" + name;
    assert p[|dir|] == '/';
    var k := LastIndex(p, '/');
    assert k == |dir| by {
      forall j | |dir| < j < |p| ensures p[j] != '/' {
        assert p[j] == name[j - |dir| - 1];
      }
    }
    assert p[k + 1..] == name;
    assert LastIndex(name, '/') == -1;
    assert name[0..] == name;
  }

  /** Index of the first `c` in `s`, or `|s|` when there is none. */
  function FirstIndex(s: string, c: char): (k: nat)
    ensures k <= |s|
    ensures forall i :: 0 <= i < k ==> s[i] != c
    ensures k < |s| ==> s[k] == c
  {
    if s == [] || s[0] == c then 0 else 1 + FirstIndex(s[1..], c)
  }

  /** `re.split` on a one-character class: the pieces between occurrences of `c`. */
  function SplitOn(s: string, c: char): (parts: seq<string>)
    ensures |parts| >= 1
    ensures forall j :: 0 <= j < |parts| ==> c !in parts[j]
    decreases |s|
  {
    var k := FirstIndex(s, c);
    if k == |s| then [s] else [s[..k]] + SplitOn(s[k + 1..], c)
  }

  lemma FirstIndexOfJoin(a: string, c: char, rest: string)
    requires c !in a
    ensures FirstIndex(a + [c] + rest, c) == |a|
  {
    var s := a + [c] + rest;
    assert s[|a|] == c;
    assert forall i :: 0 <= i < |a| ==> s[i] == a[i];
  }

  /** Splitting pieces joined by `c` gives the pieces back, when none contains `c`. */
  lemma {:induction false} SplitOnJoin(parts: seq<string>, c: char)
    requires parts != []
    requires forall j :: 0 <= j < |parts| ==> c !in parts[j]
    ensures SplitOn(Join([c], parts), c) == parts
  {
    if |parts| == 1 {
      assert FirstIndex(parts[0], c) == |parts[0]|;
    } else {
      var a := parts[0];
      var tail := parts[1..];
      assert parts == [a] + tail;
      var rest := Join([c], tail);
      assert SplitOn(Join([c], parts), c) == [a] + SplitOn(rest, c) by {
        assert Join([c], parts) == a + [c] + rest;
        FirstIndexOfJoin(a, c, rest);
        var s := a + [c] + rest;
        assert s[..|a|] == a && s[|a| + 1..] == rest;
      }
      assert SplitOn(rest, c) == tail by {
        assert forall j :: 0 <= j < |tail| ==> tail[j] == parts[j + 1];
        SplitOnJoin(tail, c);
      }
    }
  }

  /** When every piece is blank, each character is `c` or whitespace. */
  lemma {:induction false} BlankPieces(s: string, c: char)
    requires forall j :: 0 <= j < |SplitOn(s, c)| ==> Strip(SplitOn(s, c)[j]) == []
    ensures forall i :: 0 <= i < |s| ==> s[i] == c || IsSpace(s[i])
    decreases |s|
  {
    var k := FirstIndex(s, c);
    var parts := SplitOn(s, c);
    StripEmpty(parts[0]);
    if k == |s| {
      assert parts[0] == s;
    } else {
      assert parts[0] == s[..k];
      var t := s[k + 1..];
      assert SplitOn(s, c) == [s[..k]] + SplitOn(t, c);
      assert forall j :: 0 <= j < |SplitOn(t, c)| ==> SplitOn(t, c)[j] == parts[j + 1];
      BlankPieces(t, c);
      forall i | 0 <= i < |s| ensures s[i] == c || IsSpace(s[i]) {
        if i < k {
          assert s[i] == s[..k][i];
        } else if i > k {
          assert s[i] == t[i - k - 1];
        }
      }
    }
  }

  lemma FirstBreakOfJoin(a: string, rest: string)
    requires forall i :: 0 <= i < |a| ==> !IsLineBreak(a[i])
    ensures FirstBreak(a + "\n" + rest) == |a|
  {
    var s := a + "\n" + rest;
    if a == [] {
      assert s[0] == '\n';
    } else {
      assert s[1..] == a[1..] + "\n" + rest;
      FirstBreakOfJoin(a[1..], rest);
    }
  }

  /** Lines joined by "\n" split back into the same lines. */
  lemma {:induction false} SplitLinesOfJoin(lines: seq<string>)
    requires lines != []
    requires forall j, i :: 0 <= j < |lines| && 0 <= i < |lines[j]| ==> !IsLineBreak(lines[j][i])
    ensures SplitLines(Join("\n", lines)) == lines
  {
    if |lines| == 1 {
      assert FirstBreak(lines[0]) == |lines[0]|;
    } else {
      var a := lines[0];
      var rest := Join("\n", lines[1..]);
      assert Join("\n", lines) == a + "\n" + rest;
      FirstBreakOfJoin(a, rest);
      var s := a + "\n" + rest;
      assert s[..|a|] == a && s[|a| + 1..] == rest;
      SplitLinesOfJoin(lines[1..]);
      assert lines == [a] + lines[1..];
    }
  }
}
