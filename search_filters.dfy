/**
 * The include/exclude query engine of the image search application: a
 * tokenizer that keeps quoted phrases together, a shunting-yard conversion to
 * postfix with AND binding tighter than OR, a stack evaluator in which a
 * missing operand is false, and the card filter built on them.
 *
 * Each loop of the source is a method proved equal to a specification
 * function that takes one step per input element; the properties are lemmas
 * about those functions.
 */
module SearchFilters {
  import opened Wrappers
  import opened Text
  import opened Json

  // ---------------------------------------------------------------------------
  // Tokenizer
  // ---------------------------------------------------------------------------

  /** The tokenizer's variables between two characters: `tokens`, `buf`, `in_quote`. */
  datatype TokState = TokState(tokens: seq<string>, buf: string, inQuote: bool)

  const StartState := TokState([], [], false)

  /** The `if buf:` flush: the stripped buffer becomes a token when it is non-empty. */
  function Flush(tokens: seq<string>, buf: string): seq<string>
  {
    if buf != [] then tokens + [Strip(buf)] else tokens
  }

  /** One turn of the tokenizer's loop. */
  function TokStep(st: TokState, ch: char): TokState
  {
    if ch == '"' then
      if st.inQuote then TokState(st.tokens + [Strip(st.buf)], [], false)
      else TokState(Flush(st.tokens, st.buf), [], true)
    else if ch == '(' || ch == ')' then
      if st.inQuote then st.(buf := st.buf + [ch])
      else TokState(Flush(st.tokens, st.buf) + [[ch]], [], false)
    else if IsSpace(ch) && !st.inQuote then TokState(Flush(st.tokens, st.buf), [], false)
    else st.(buf := st.buf + [ch])
  }

  /** The tokenizer's state after reading `s` from `st`. */
  function TokRun(st: TokState, s: string): TokState
    decreases |s|
  {
    if s == [] then st else TokStep(TokRun(st, s[..|s| - 1]), s[|s| - 1])
  }

  /** `[t for t in tokens if t]`. */
  function NonEmpty(tokens: seq<string>): seq<string>
    decreases |tokens|
  {
    if tokens == [] then []
    else NonEmpty(tokens[..|tokens| - 1]) + (if tokens[|tokens| - 1] != [] then [tokens[|tokens| - 1]] else [])
  }

  /** What the tokenizer returns once the loop is over. */
  function Finish(st: TokState): seq<string>
  {
    NonEmpty(Flush(st.tokens, st.buf))
  }

  /** The tokens of an expression, as `_tokenize` computes them. */
  function Tokens(expr: string): seq<string>
  {
    Finish(TokRun(StartState, expr))
  }

  /** `_tokenize`: walks the characters with a buffer and a quote flag. */
  method Tokenize(expr: string) returns (tokens: seq<string>)
    ensures tokens == Tokens(expr)
  {
    var toks: seq<string> := [];
    var buf: string := [];
    var inQuote := false;
    var i := 0;
    while i < |expr|
      invariant 0 <= i <= |expr|
      invariant TokState(toks, buf, inQuote) == TokRun(StartState, expr[..i])
    {
      var ch := expr[i];
      if ch == '"' {
        if inQuote {
          toks := toks + [Strip(buf)];
          buf := [];
          inQuote := false;
        } else {
          if buf != [] {
            toks := toks + [Strip(buf)];
            buf := [];
          }
          inQuote := true;
        }
      } else if ch == '(' || ch == ')' {
        if inQuote {
          buf := buf + [ch];
        } else {
          if buf != [] {
            toks := toks + [Strip(buf)];
            buf := [];
          }
          toks := toks + [[ch]];
        }
      } else if IsSpace(ch) && !inQuote {
        if buf != [] {
          toks := toks + [Strip(buf)];
          buf := [];
        }
      } else {
        buf := buf + [ch];
      }
      assert expr[..i + 1][..i] == expr[..i];
      i := i + 1;
    }
    assert expr[..i] == expr;
    if buf != [] {
      toks := toks + [Strip(buf)];
    }
    tokens := NonEmpty(toks);
  }

  lemma {:induction false} NonEmptyAppend(a: seq<string>, b: seq<string>)
    ensures NonEmpty(a + b) == NonEmpty(a) + NonEmpty(b)
    decreases |b|
  {
    if b != [] {
      assert (a + b)[..|a + b| - 1] == a + b[..|b| - 1];
      NonEmptyAppend(a, b[..|b| - 1]);
    } else {
      assert a + b == a;
    }
  }

  /** Dropping empty strings keeps every other token, in order. */
  lemma {:induction false} NonEmptyKeeps(tokens: seq<string>)
    requires forall j :: 0 <= j < |tokens| ==> tokens[j] != []
    ensures NonEmpty(tokens) == tokens
    decreases |tokens|
  {
    if tokens != [] {
      NonEmptyKeeps(tokens[..|tokens| - 1]);
    }
  }

  lemma {:induction false} NonEmptyElements(tokens: seq<string>, P: string -> bool)
    requires forall j :: 0 <= j < |tokens| ==> P(tokens[j])
    ensures forall j :: 0 <= j < |NonEmpty(tokens)| ==> NonEmpty(tokens)[j] != [] && P(NonEmpty(tokens)[j])
    decreases |tokens|
  {
    if tokens != [] {
      NonEmptyElements(tokens[..|tokens| - 1], P);
    }
  }

  /** Reading `a` and then `b` is reading `a + b`. */
  lemma {:induction false} TokRunAppend(st: TokState, a: string, b: string)
    ensures TokRun(st, a + b) == TokRun(TokRun(st, a), b)
    decreases |b|
  {
    if b == [] {
      assert a + b == a;
    } else {
      assert (a + b)[..|a + b| - 1] == a + b[..|b| - 1];
      TokRunAppend(st, a, b[..|b| - 1]);
    }
  }

  predicate AllStripped(tokens: seq<string>)
  {
    forall j :: 0 <= j < |tokens| ==> Stripped(tokens[j])
  }

  lemma AllStrippedAppend(tokens: seq<string>, t: string)
    requires AllStripped(tokens) && Stripped(t)
    ensures AllStripped(tokens + [t])
  {
    var r := tokens + [t];
    assert forall j :: 0 <= j < |tokens| ==> r[j] == tokens[j];
  }

  lemma FlushStripped(tokens: seq<string>, buf: string)
    requires AllStripped(tokens)
    ensures AllStripped(Flush(tokens, buf))
  {
    if buf != [] {
      StripIsStripped(buf);
      AllStrippedAppend(tokens, Strip(buf));
    }
  }

  /** One character read keeps every token stripped. */
  lemma TokStepStripped(st: TokState, ch: char)
    requires AllStripped(st.tokens)
    ensures AllStripped(TokStep(st, ch).tokens)
  {
    FlushStripped(st.tokens, st.buf);
    if ch == '"' && st.inQuote {
      StripIsStripped(st.buf);
      AllStrippedAppend(st.tokens, Strip(st.buf));
    } else if (ch == '(' || ch == ')') && !st.inQuote {
      AllStrippedAppend(Flush(st.tokens, st.buf), [ch]);
    }
  }

  lemma {:induction false} TokRunStripped(st: TokState, s: string)
    requires AllStripped(st.tokens)
    ensures AllStripped(TokRun(st, s).tokens)
    decreases |s|
  {
    if s != [] {
      var prev := TokRun(st, s[..|s| - 1]);
      TokRunStripped(st, s[..|s| - 1]);
      TokStepStripped(prev, s[|s| - 1]);
    }
  }

  /** No token is empty, and none starts or ends with whitespace. */
  lemma TokensAreStripped(expr: string)
    ensures forall j :: 0 <= j < |Tokens(expr)| ==> Tokens(expr)[j] != [] && Stripped(Tokens(expr)[j])
  {
    var st := TokRun(StartState, expr);
    TokRunStripped(StartState, expr);
    StripIsStripped(st.buf);
    NonEmptyElements(Flush(st.tokens, st.buf), Stripped);
  }

  /** A character that cannot end a bare word: whitespace, a quote or a parenthesis. */
  predicate IsDelimiter(c: char)
  {
    IsSpace(c) || c == '"' || c == '(' || c == ')'
  }

  /** A bare word: non-empty and free of delimiters. */
  predicate IsPlain(t: string)
  {
    t != [] && forall i :: 0 <= i < |t| ==> !IsDelimiter(t[i])
  }

  predicate IsParen(t: string)
  {
    t == "(" || t == ")"
  }

  /** The parentheses of an expression, in order. */
  function ParenChars(s: string): string
    decreases |s|
  {
    if s == [] then []
    else ParenChars(s[..|s| - 1]) + (if s[|s| - 1] == '(' || s[|s| - 1] == ')' then [s[|s| - 1]] else [])
  }

  /** The parenthesis tokens of a token list, as characters, in order. */
  function ParenTokens(tokens: seq<string>): string
    decreases |tokens|
  {
    if tokens == [] then []
    else
      var t := tokens[|tokens| - 1];
      ParenTokens(tokens[..|tokens| - 1]) + (if IsParen(t) then [t[0]] else [])
  }

  lemma {:induction false} ParenTokensAppend(a: seq<string>, b: seq<string>)
    ensures ParenTokens(a + b) == ParenTokens(a) + ParenTokens(b)
    decreases |b|
  {
    if b != [] {
      assert (a + b)[..|a + b| - 1] == a + b[..|b| - 1];
      ParenTokensAppend(a, b[..|b| - 1]);
    } else {
      assert a + b == a;
    }
  }

  lemma {:induction false} ParenTokensNonEmpty(tokens: seq<string>)
    ensures ParenTokens(NonEmpty(tokens)) == ParenTokens(tokens)
    decreases |tokens|
  {
    if tokens != [] {
      var init := tokens[..|tokens| - 1];
      var t := tokens[|tokens| - 1];
      ParenTokensNonEmpty(init);
      ParenTokensAppend(NonEmpty(init), if t != [] then [t] else []);
      assert tokens == init + [t];
    }
  }

  predicate PlainOrParen(tokens: seq<string>)
  {
    forall j :: 0 <= j < |tokens| ==> IsPlain(tokens[j]) || IsParen(tokens[j])
  }

  /** What the tokenizer keeps while it reads an expression without quotes. */
  predicate QuoteFreeState(st: TokState, s: string)
  {
    && !st.inQuote
    && (forall i :: 0 <= i < |st.buf| ==> !IsDelimiter(st.buf[i]))
    && PlainOrParen(st.tokens)
    && ParenTokens(st.tokens) == ParenChars(s)
  }

  lemma FlushQuoteFree(tokens: seq<string>, buf: string)
    requires PlainOrParen(tokens)
    requires forall i :: 0 <= i < |buf| ==> !IsDelimiter(buf[i])
    ensures PlainOrParen(Flush(tokens, buf))
    ensures ParenTokens(Flush(tokens, buf)) == ParenTokens(tokens)
  {
    if buf != [] {
      StripOfStripped(buf);
      ParenTokensAppend(tokens, [buf]);
      assert [buf][..0] == [];
    }
  }

  lemma PlainOrParenAppend(tokens: seq<string>, t: string)
    requires PlainOrParen(tokens) && (IsPlain(t) || IsParen(t))
    ensures PlainOrParen(tokens + [t])
  {
    var r := tokens + [t];
    assert forall j :: 0 <= j < |tokens| ==> r[j] == tokens[j];
  }

  /** The parentheses of `s` and one more character. */
  lemma ParenCharsLast(s: string, ch: char)
    ensures ParenChars(s + [ch]) == ParenChars(s) + (if ch == '(' || ch == ')' then [ch] else [])
  {
    assert (s + [ch])[..|s|] == s;
  }

  /** A parenthesis outside quotes ends the word before it and is a token of its own. */
  lemma TokStepParen(st: TokState, s: string, ch: char)
    requires QuoteFreeState(st, s) && (ch == '(' || ch == ')')
    ensures QuoteFreeState(TokStep(st, ch), s + [ch])
  {
    var flushed := Flush(st.tokens, st.buf);
    var next := TokState(flushed + [[ch]], [], false);
    assert TokStep(st, ch) == next;
    assert PlainOrParen(flushed + [[ch]]) by {
      FlushQuoteFree(st.tokens, st.buf);
      assert IsParen([ch]) by {
        if ch == '(' { assert [ch] == "("; } else { assert [ch] == ")"; }
      }
      PlainOrParenAppend(flushed, [ch]);
    }
    assert ParenTokens(flushed + [[ch]]) == ParenChars(s + [ch]) by {
      FlushQuoteFree(st.tokens, st.buf);
      ParenCharsLast(s, ch);
      ParenTokensAppend(flushed, [[ch]]);
      assert [[ch]][..0] == [];
    }
  }

  /** Whitespace outside quotes ends the word before it. */
  lemma TokStepSpace(st: TokState, s: string, ch: char)
    requires QuoteFreeState(st, s) && IsSpace(ch)
    ensures QuoteFreeState(TokStep(st, ch), s + [ch])
  {
    var next := TokState(Flush(st.tokens, st.buf), [], false);
    assert TokStep(st, ch) == next;
    assert QuoteFreeState(next, s + [ch]) by {
      FlushQuoteFree(st.tokens, st.buf);
      ParenCharsLast(s, ch);
    }
  }

  /** Any other character joins the word being read. */
  lemma TokStepWord(st: TokState, s: string, ch: char)
    requires QuoteFreeState(st, s) && !IsDelimiter(ch)
    ensures QuoteFreeState(TokStep(st, ch), s + [ch])
  {
    var next := st.(buf := st.buf + [ch]);
    assert TokStep(st, ch) == next;
    assert ParenChars(s + [ch]) == ParenChars(s) by {
      ParenCharsLast(s, ch);
    }
    assert forall i :: 0 <= i < |next.buf| ==> !IsDelimiter(next.buf[i]) by {
      assert forall i :: 0 <= i < |st.buf| ==> next.buf[i] == st.buf[i];
    }
  }

  lemma TokStepQuoteFree(st: TokState, s: string, ch: char)
    requires QuoteFreeState(st, s) && ch != '"'
    ensures QuoteFreeState(TokStep(st, ch), s + [ch])
  {
    if ch == '(' || ch == ')' {
      TokStepParen(st, s, ch);
    } else if IsSpace(ch) {
      TokStepSpace(st, s, ch);
    } else {
      TokStepWord(st, s, ch);
    }
  }

  lemma {:induction false} TokRunQuoteFree(s: string)
    requires '"' !in s
    ensures QuoteFreeState(TokRun(StartState, s), s)
    decreases |s|
  {
    if s != [] {
      var init := s[..|s| - 1];
      assert '"' !in init by {
        assert forall c :: c in init ==> c in s;
      }
      TokRunQuoteFree(init);
      TokStepQuoteFree(TokRun(StartState, init), init, s[|s| - 1]);
      assert init + [s[|s| - 1]] == s;
    }
  }

  /**
   * In an expression without quotes every parenthesis is a token of its own:
   * each token is a single parenthesis or a bare word, and the parenthesis
   * tokens are exactly the parentheses of the expression, in order.
   */
  lemma ParenthesesAreTokens(expr: string)
    requires '"' !in expr
    ensures PlainOrParen(Tokens(expr))
    ensures ParenTokens(Tokens(expr)) == ParenChars(expr)
  {
    var st := TokRun(StartState, expr);
    TokRunQuoteFree(expr);
    if st.buf != [] {
      StripOfStripped(st.buf);
      ParenTokensAppend(st.tokens, [st.buf]);
    }
    var flushed := Flush(st.tokens, st.buf);
    assert PlainOrParen(flushed);
    NonEmptyElements(flushed, t => IsPlain(t) || IsParen(t));
    ParenTokensNonEmpty(flushed);
  }

  /** Inside quotes, every character but a quote goes into the buffer. */
  lemma {:induction false} TokRunInQuote(st: TokState, p: string)
    requires st.inQuote && '"' !in p
    ensures TokRun(st, p) == st.(buf := st.buf + p)
    decreases |p|
  {
    if p != [] {
      assert '"' !in p[..|p| - 1] by {
        assert forall c :: c in p[..|p| - 1] ==> c in p;
      }
      TokRunInQuote(st, p[..|p| - 1]);
      assert st.buf + p[..|p| - 1] + [p[|p| - 1]] == st.buf + p;
    }
  }

  /** A quoted phrase read from outside quotes becomes one stripped token. */
  lemma QuotedRun(st: TokState, p: string)
    requires !st.inQuote && '"' !in p
    ensures TokRun(st, "\"" + p + "\"") == TokState(Flush(st.tokens, st.buf) + [Strip(p)], [], false)
  {
    var open := TokRun(st, "\"");
    assert "\""[..0] == [];
    assert open == TokState(Flush(st.tokens, st.buf), [], true);
    TokRunAppend(st, "\"", p);
    TokRunInQuote(open, p);
    TokRunAppend(st, "\"" + p, "\"");
    assert []+ p == p;
  }

  /**
   * A quoted phrase, spaces and parentheses included, is a single token; so is
   * the text after a quote that is never closed.
   */
  lemma QuotedPhrase(p: string)
    requires '"' !in p
    ensures Tokens("\"" + p + "\"") == if Strip(p) == [] then [] else [Strip(p)]
    ensures Tokens("\"" + p) == if p == [] || Strip(p) == [] then [] else [Strip(p)]
  {
    QuotedRun(StartState, p);
    var open := TokRun(StartState, "\"");
    assert "\""[..0] == [];
    TokRunAppend(StartState, "\"", p);
    TokRunInQuote(open, p);
    assert [] + p == p;
    assert NonEmpty([Strip(p)]) == if Strip(p) == [] then [] else [Strip(p)] by {
      assert [Strip(p)][..0] == [];
    }
  }

  /** A bare word read outside quotes only grows the buffer. */
  lemma {:induction false} TokRunPlain(st: TokState, w: string)
    requires !st.inQuote
    requires forall i :: 0 <= i < |w| ==> !IsDelimiter(w[i])
    ensures TokRun(st, w) == st.(buf := st.buf + w)
    decreases |w|
  {
    if w != [] {
      TokRunPlain(st, w[..|w| - 1]);
      assert st.buf + w[..|w| - 1] + [w[|w| - 1]] == st.buf + w;
    }
  }

  /** A bare word or a parenthesis, then a space, read from an idle state, is one token. */
  lemma TokRunToken(st: TokState, t: string)
    requires !st.inQuote && st.buf == []
    requires IsPlain(t) || IsParen(t)
    ensures TokRun(st, t + " ") == TokState(st.tokens + [t], [], false)
  {
    var mid := TokRun(st, t);
    assert TokRun(st, t + " ") == TokRun(mid, " ") by {
      TokRunAppend(st, t, " ");
    }
    assert TokRun(mid, " ") == TokState(Flush(mid.tokens, mid.buf), [], false) by {
      TokRunTokenRead(st, t);
      TokRunSpace(mid);
    }
    assert Flush(mid.tokens, mid.buf) == st.tokens + [t] by {
      TokRunTokenRead(st, t);
    }
  }

  /** A space read outside quotes flushes the word being read. */
  lemma TokRunSpace(st: TokState)
    requires !st.inQuote
    ensures TokRun(st, " ") == TokState(Flush(st.tokens, st.buf), [], false)
  {
    assert " "[..0] == [];
    assert TokRun(st, " ") == TokStep(st, ' ');
  }

  /** The state after a bare word or a parenthesis read from an idle state. */
  lemma TokRunTokenRead(st: TokState, t: string)
    requires !st.inQuote && st.buf == []
    requires IsPlain(t) || IsParen(t)
    ensures IsPlain(t) ==> TokRun(st, t) == TokState(st.tokens, t, false) && Strip(t) == t
    ensures IsParen(t) ==> TokRun(st, t) == TokState(st.tokens + [t], [], false)
  {
    if IsPlain(t) {
      TokRunWordRead(st, t);
    } else {
      TokRunParenRead(st, t);
    }
  }

  lemma TokRunWordRead(st: TokState, t: string)
    requires !st.inQuote && st.buf == [] && IsPlain(t)
    ensures TokRun(st, t) == TokState(st.tokens, t, false) && Strip(t) == t
  {
    assert TokRun(st, t) == st.(buf := st.buf + t) by {
      TokRunPlain(st, t);
    }
    assert st.buf + t == t;
    assert Strip(t) == t by {
      assert !IsSpace(t[0]) && !IsSpace(t[|t| - 1]);
      StripOfStripped(t);
    }
  }

  lemma TokRunParenRead(st: TokState, t: string)
    requires !st.inQuote && st.buf == [] && IsParen(t)
    ensures TokRun(st, t) == TokState(st.tokens + [t], [], false)
  {
    assert t == [t[0]];
    assert TokRun(st, t[..0]) == st by {
      assert t[..0] == [];
    }
  }

  /** A bare word or a parenthesis at the end of the input is the last token. */
  lemma TokRunLastToken(st: TokState, t: string)
    requires !st.inQuote && st.buf == []
    requires IsPlain(t) || IsParen(t)
    ensures Finish(TokRun(st, t)) == NonEmpty(st.tokens + [t])
  {
    TokRunTokenRead(st, t);
  }

  /** Reading the first token and its space from an idle state. */
  lemma TokRunJoinFirst(st: TokState, ts: seq<string>)
    requires !st.inQuote && st.buf == [] && |ts| > 1
    requires IsPlain(ts[0]) || IsParen(ts[0])
    ensures TokRun(st, Join(" ", ts)) == TokRun(TokState(st.tokens + [ts[0]], [], false), Join(" ", ts[1..]))
  {
    assert Join(" ", ts) == (ts[0] + " ") + Join(" ", ts[1..]);
    TokRunToken(st, ts[0]);
    TokRunAppend(st, ts[0] + " ", Join(" ", ts[1..]));
  }

  lemma PlainOrParenTail(ts: seq<string>)
    requires ts != [] && PlainOrParen(ts)
    ensures PlainOrParen(ts[1..])
  {
    forall j | 0 <= j < |ts| - 1 ensures IsPlain(ts[1..][j]) || IsParen(ts[1..][j]) {
      assert ts[1..][j] == ts[j + 1];
    }
  }

  lemma TokRunJoinShort(st: TokState, ts: seq<string>)
    requires !st.inQuote && st.buf == [] && |ts| <= 1
    requires PlainOrParen(ts)
    ensures Finish(TokRun(st, Join(" ", ts))) == NonEmpty(st.tokens + ts)
  {
    if ts == [] {
      assert Join(" ", ts) == "";
      assert TokRun(st, "") == st;
      assert st.tokens + ts == st.tokens;
    } else {
      var t := ts[0];
      assert ts == [t];
      assert Join(" ", ts) == t;
      TokRunLastToken(st, t);
    }
  }

  lemma TokRunJoinStep(st: TokState, ts: seq<string>)
    requires !st.inQuote && st.buf == [] && |ts| > 1
    requires IsPlain(ts[0]) || IsParen(ts[0])
    requires Finish(TokRun(TokState(st.tokens + [ts[0]], [], false), Join(" ", ts[1..])))
             == NonEmpty(st.tokens + [ts[0]] + ts[1..])
    ensures Finish(TokRun(st, Join(" ", ts))) == NonEmpty(st.tokens + ts)
  {
    TokRunJoinFirst(st, ts);
    ConsAppend(st.tokens, ts);
    FinishCongruence(TokRun(st, Join(" ", ts)),
                     TokRun(TokState(st.tokens + [ts[0]], [], false), Join(" ", ts[1..])),
                     st.tokens + ts, st.tokens + [ts[0]] + ts[1..]);
  }

  lemma ConsAppend(a: seq<string>, ts: seq<string>)
    requires ts != []
    ensures a + [ts[0]] + ts[1..] == a + ts
  {
    assert ts == [ts[0]] + ts[1..];
  }

  lemma FinishCongruence(a: TokState, b: TokState, x: seq<string>, y: seq<string>)
    requires a == b && x == y && Finish(b) == NonEmpty(y)
    ensures Finish(a) == NonEmpty(x)
  {
  }

  /** Tokens joined by spaces from an idle state: each token is read back. */
  lemma {:induction false} TokRunJoin(st: TokState, ts: seq<string>)
    requires !st.inQuote && st.buf == []
    requires PlainOrParen(ts)
    ensures Finish(TokRun(st, Join(" ", ts))) == NonEmpty(st.tokens + ts)
    decreases |ts|
  {
    if |ts| <= 1 {
      TokRunJoinShort(st, ts);
    } else {
      PlainOrParenTail(ts);
      TokRunJoin(TokState(st.tokens + [ts[0]], [], false), ts[1..]);
      TokRunJoinStep(st, ts);
    }
  }

  /** Bare words and parentheses separated by single spaces tokenize back to themselves. */
  lemma TokensOfJoin(ts: seq<string>)
    requires PlainOrParen(ts)
    ensures Tokens(Join(" ", ts)) == ts
  {
    assert Tokens(Join(" ", ts)) == NonEmpty(ts) by {
      TokRunJoin(StartState, ts);
      assert StartState.tokens + ts == ts;
    }
    assert NonEmpty(ts) == ts by {
      forall j | 0 <= j < |ts| ensures ts[j] != [] {
        assert IsPlain(ts[j]) || IsParen(ts[j]);
      }
      NonEmptyKeeps(ts);
    }
  }

  // ---------------------------------------------------------------------------
  // Shunting-yard conversion to postfix
  // ---------------------------------------------------------------------------

  predicate IsOp(t: string)
  {
    t == "AND" || t == "OR"
  }

  /** The precedence table: AND binds tighter than OR. */
  function Prec(op: string): int
  {
    if op == "AND" then 2 else 1
  }

  /** The converter's `output` list and operator `stack`, whose top is its last element. */
  datatype PostState = PostState(output: seq<string>, stack: seq<string>)

  const PostStart := PostState([], [])

  /** The inner loop for an operator: pop operators of at least precedence `p`. */
  function PopOps(output: seq<string>, stack: seq<string>, p: int): PostState
    decreases |stack|
  {
    if stack != [] && IsOp(stack[|stack| - 1]) && Prec(stack[|stack| - 1]) >= p then
      PopOps(output + [stack[|stack| - 1]], stack[..|stack| - 1], p)
    else PostState(output, stack)
  }

  /** The inner loop for ")": pop everything above the nearest "(". */
  function PopToParen(output: seq<string>, stack: seq<string>): PostState
    decreases |stack|
  {
    if stack != [] && stack[|stack| - 1] != "(" then
      PopToParen(output + [stack[|stack| - 1]], stack[..|stack| - 1])
    else PostState(output, stack)
  }

  /** One turn of the converter's loop over the tokens. */
  function PostStep(st: PostState, tok: string): PostState
  {
    if IsOp(tok) then
      var p := PopOps(st.output, st.stack, Prec(tok));
      PostState(p.output, p.stack + [tok])
    else if tok == "(" then
      st.(stack := st.stack + ["("])
    else if tok == ")" then
      var p := PopToParen(st.output, st.stack);
      if p.stack != [] && p.stack[|p.stack| - 1] == "(" then p.(stack := p.stack[..|p.stack| - 1])
      else p
    else
      st.(output := st.output + [tok])
  }

  /** The converter's state after reading `toks` from `st`. */
  function PostRun(st: PostState, toks: seq<string>): PostState
    decreases |toks|
  {
    if toks == [] then st else PostRun(PostStep(st, toks[0]), toks[1..])
  }

  /** The final loop: the rest of the stack goes to the output, top first. */
  function Drain(output: seq<string>, stack: seq<string>): seq<string>
    decreases |stack|
  {
    if stack == [] then output else Drain(output + [stack[|stack| - 1]], stack[..|stack| - 1])
  }

  /** The postfix form of a token list, as `_to_postfix` computes it. */
  function Postfix(tokens: seq<string>): seq<string>
  {
    var st := PostRun(PostStart, tokens);
    Drain(st.output, st.stack)
  }

  /** `_to_postfix`: a loop over the tokens with two inner popping loops, then a drain. */
  method ToPostfix(tokens: seq<string>) returns (output: seq<string>)
    ensures output == Postfix(tokens)
  {
    output := [];
    var stack: seq<string> := [];
    for i := 0 to |tokens|
      invariant PostRun(PostState(output, stack), tokens[i..]) == PostRun(PostStart, tokens)
    {
      assert tokens[i..][1..] == tokens[i + 1..];
      var tok := tokens[i];
      if tok == "AND" || tok == "OR" {
        ghost var target := PopOps(output, stack, Prec(tok));
        while stack != [] && IsOp(stack[|stack| - 1]) && Prec(stack[|stack| - 1]) >= Prec(tok)
          invariant PopOps(output, stack, Prec(tok)) == target
          decreases |stack|
        {
          output := output + [stack[|stack| - 1]];
          stack := stack[..|stack| - 1];
        }
        stack := stack + [tok];
      } else if tok == "(" {
        stack := stack + [tok];
      } else if tok == ")" {
        ghost var target := PopToParen(output, stack);
        while stack != [] && stack[|stack| - 1] != "("
          invariant PopToParen(output, stack) == target
          decreases |stack|
        {
          output := output + [stack[|stack| - 1]];
          stack := stack[..|stack| - 1];
        }
        if stack != [] && stack[|stack| - 1] == "(" {
          stack := stack[..|stack| - 1];
        }
      } else {
        output := output + [tok];
      }
    }
    ghost var target := Drain(output, stack);
    while stack != []
      invariant Drain(output, stack) == target
      decreases |stack|
    {
      output := output + [stack[|stack| - 1]];
      stack := stack[..|stack| - 1];
    }
  }

  // ---------------------------------------------------------------------------
  // Postfix evaluation
  // ---------------------------------------------------------------------------

  /** `_match_token`: the lowered token occurs in the haystack. */
  predicate MatchToken(token: string, haystack: string)
  {
    Contains(haystack, Lower(token))
  }

  /** `stack.pop() if stack else False`, with the stack that is left. */
  function PopOr(stack: seq<bool>): (bool, seq<bool>)
  {
    if stack == [] then (false, []) else (stack[|stack| - 1], stack[..|stack| - 1])
  }

  /** One turn of the evaluator's loop. */
  function EvalStep(stack: seq<bool>, tok: string, haystack: string): seq<bool>
  {
    if tok == "AND" || tok == "OR" then
      var (b, rest) := PopOr(stack);
      var (a, rest') := PopOr(rest);
      rest' + [if tok == "AND" then a && b else a || b]
    else
      stack + [MatchToken(tok, haystack)]
  }

  /** The evaluator's stack after reading `toks` onto `stack`. */
  function EvalRun(stack: seq<bool>, toks: seq<string>, haystack: string): seq<bool>
    decreases |toks|
  {
    if toks == [] then stack
    else EvalRun(EvalStep(stack, toks[0], haystack), toks[1..], haystack)
  }

  /** The truth value of a postfix list, as `_eval_postfix` computes it. */
  predicate PostfixValue(postfix: seq<string>, haystack: string)
  {
    if postfix == [] then true
    else
      var stack := EvalRun([], postfix, haystack);
      stack != [] && stack[|stack| - 1]
  }

  /** `_eval_postfix`: a stack of booleans, where a missing operand reads as false. */
  method EvalPostfix(postfix: seq<string>, haystack: string) returns (r: bool)
    ensures r == PostfixValue(postfix, haystack)
  {
    if postfix == [] {
      return true;
    }
    var stack: seq<bool> := [];
    for i := 0 to |postfix|
      invariant EvalRun(stack, postfix[i..], haystack) == EvalRun([], postfix, haystack)
    {
      assert postfix[i..][1..] == postfix[i + 1..];
      var tok := postfix[i];
      if tok == "AND" || tok == "OR" {
        var b := false;
        if stack != [] {
          b := stack[|stack| - 1];
          stack := stack[..|stack| - 1];
        }
        var a := false;
        if stack != [] {
          a := stack[|stack| - 1];
          stack := stack[..|stack| - 1];
        }
        stack := stack + [if tok == "AND" then a && b else a || b];
      } else {
        stack := stack + [MatchToken(tok, haystack)];
      }
    }
    r := stack != [] && stack[|stack| - 1];
  }

  // ---------------------------------------------------------------------------
  // Expressions
  // ---------------------------------------------------------------------------

  /**
   * Whether `haystack` satisfies `expr`, as `evaluate_expression` decides: a
   * blank expression holds everywhere; otherwise the tokens go through the
   * shunting-yard conversion and the postfix evaluator.
   */
  predicate Holds(expr: string, haystack: string)
  {
    var e := Strip(expr);
    e == [] || PostfixValue(Postfix(Tokens(e)), haystack)
  }

  /** `evaluate_expression`. */
  method EvaluateExpression(expr: string, haystack: string) returns (r: bool)
    ensures r == Holds(expr, haystack)
  {
    var e := Strip(expr);
    if e == [] {
      return true;
    }
    var tokens := Tokenize(e);
    var postfix := ToPostfix(tokens);
    r := EvalPostfix(postfix, haystack);
  }

  // ---------------------------------------------------------------------------
  // Correctness against a reference semantics
  // ---------------------------------------------------------------------------

  lemma {:induction false} PostRunAppend(st: PostState, a: seq<string>, b: seq<string>)
    ensures PostRun(st, a + b) == PostRun(PostRun(st, a), b)
    decreases |a|
  {
    if a == [] {
      assert a + b == b;
    } else {
      assert (a + b)[1..] == a[1..] + b;
      PostRunAppend(PostStep(st, a[0]), a[1..], b);
    }
  }

  lemma {:induction false} EvalRunAppend(stack: seq<bool>, a: seq<string>, b: seq<string>, haystack: string)
    ensures EvalRun(stack, a + b, haystack) == EvalRun(EvalRun(stack, a, haystack), b, haystack)
    decreases |a|
  {
    if a == [] {
      assert a + b == b;
    } else {
      assert (a + b)[1..] == a[1..] + b;
      EvalRunAppend(EvalStep(stack, a[0], haystack), a[1..], b, haystack);
    }
  }

  /** A query written with explicit parentheses around every AND and OR. */
  datatype Query = Word(w: string) | Both(left: Query, right: Query) | Either(left: Query, right: Query)

  /** Every word is a bare word that is not itself an operator. */
  predicate ValidQuery(q: Query)
  {
    match q
    case Word(w) => IsPlain(w) && !IsOp(w)
    case Both(l, r) => ValidQuery(l) && ValidQuery(r)
    case Either(l, r) => ValidQuery(l) && ValidQuery(r)
  }

  /** The tokens of the query as a user would type it, fully parenthesized. */
  function Infix(q: Query): seq<string>
  {
    match q
    case Word(w) => [w]
    case Both(l, r) => ["("] + Infix(l) + ["AND"] + Infix(r) + [")"]
    case Either(l, r) => ["("] + Infix(l) + ["OR"] + Infix(r) + [")"]
  }

  /** The query in reverse Polish notation. */
  function Rpn(q: Query): seq<string>
  {
    match q
    case Word(w) => [w]
    case Both(l, r) => Rpn(l) + Rpn(r) + ["AND"]
    case Either(l, r) => Rpn(l) + Rpn(r) + ["OR"]
  }

  /** What the query means: AND is conjunction, OR disjunction, a word a case-blind substring test. */
  predicate Sem(q: Query, haystack: string)
  {
    match q
    case Word(w) => MatchToken(w, haystack)
    case Both(l, r) => Sem(l, haystack) && Sem(r, haystack)
    case Either(l, r) => Sem(l, haystack) || Sem(r, haystack)
  }

  lemma PostRunOne(st: PostState, t: string)
    ensures PostRun(st, [t]) == PostStep(st, t)
  {
    assert [t][1..] == [];
  }

  /** After "(", an operator goes onto the stack without popping anything. */
  lemma PostStepOpAfterOpen(output: seq<string>, stack: seq<string>, op: string)
    requires IsOp(op)
    ensures PostStep(PostState(output, stack + ["("]), op) == PostState(output, stack + ["(", op])
  {
    assert PopOps(output, stack + ["("], Prec(op)) == PostState(output, stack + ["("]);
    assert stack + ["("] + [op] == stack + ["(", op];
  }

  /** ")" pops the operator above the matching "(" and then the "(". */
  lemma PostStepCloseAfterOp(output: seq<string>, stack: seq<string>, op: string)
    requires IsOp(op)
    ensures PostStep(PostState(output, stack + ["(", op]), ")") == PostState(output + [op], stack)
  {
    assert (stack + ["(", op])[..|stack| + 1] == stack + ["("];
    assert PopToParen(output + [op], stack + ["("]) == PostState(output + [op], stack + ["("]);
    assert PopToParen(output, stack + ["(", op]) == PostState(output + [op], stack + ["("]);
    assert (stack + ["("])[..|stack|] == stack;
  }

  /** Five stages of the converter, read one after the other. */
  lemma PostRunFive(st: PostState, open: string, l: seq<string>, op: string, r: seq<string>, close: string,
                    s1: PostState, s2: PostState, s3: PostState, s4: PostState, s5: PostState)
    requires PostStep(st, open) == s1 && PostRun(s1, l) == s2 && PostStep(s2, op) == s3
    requires PostRun(s3, r) == s4 && PostStep(s4, close) == s5
    ensures PostRun(st, [open] + l + [op] + r + [close]) == s5
  {
    PostRunOne(st, open);
    PostRunAppend(st, [open], l);
    PostRunOne(s2, op);
    PostRunAppend(st, [open] + l, [op]);
    PostRunAppend(st, [open] + l + [op], r);
    PostRunOne(s4, close);
    PostRunAppend(st, [open] + l + [op] + r, [close]);
  }

  /** The shunting-yard conversion of a compound query, given that of its parts. */
  lemma PostRunCompound(st: PostState, l: seq<string>, op: string, r: seq<string>, rl: seq<string>, rr: seq<string>)
    requires IsOp(op)
    requires PostRun(PostState(st.output, st.stack + ["("]), l) == PostState(st.output + rl, st.stack + ["("])
    requires PostRun(PostState(st.output + rl, st.stack + ["(", op]), r)
             == PostState(st.output + rl + rr, st.stack + ["(", op])
    ensures PostRun(st, ["("] + l + [op] + r + [")"]) == PostState(st.output + (rl + rr + [op]), st.stack)
  {
    PostStepOpAfterOpen(st.output + rl, st.stack, op);
    PostStepCloseAfterOp(st.output + rl + rr, st.stack, op);
    assert st.output + rl + rr + [op] == st.output + (rl + rr + [op]);
    PostRunFive(st, "(", l, op, r, ")",
                PostState(st.output, st.stack + ["("]), PostState(st.output + rl, st.stack + ["("]),
                PostState(st.output + rl, st.stack + ["(", op]), PostState(st.output + rl + rr, st.stack + ["(", op]),
                PostState(st.output + (rl + rr + [op]), st.stack));
  }

  /** Converting the infix tokens of a query appends its reverse Polish form to the output. */
  lemma {:induction false} PostRunInfix(st: PostState, q: Query)
    requires ValidQuery(q)
    ensures PostRun(st, Infix(q)) == PostState(st.output + Rpn(q), st.stack)
    decreases q
  {
    match q
    case Word(w) =>
      assert w[0] != '(' && w[0] != ')';
      PostRunOne(st, w);
    case Both(l, r) =>
      PostRunInfix(PostState(st.output, st.stack + ["("]), l);
      PostRunInfix(PostState(st.output + Rpn(l), st.stack + ["(", "AND"]), r);
      PostRunCompound(st, Infix(l), "AND", Infix(r), Rpn(l), Rpn(r));
    case Either(l, r) =>
      PostRunInfix(PostState(st.output, st.stack + ["("]), l);
      PostRunInfix(PostState(st.output + Rpn(l), st.stack + ["(", "OR"]), r);
      PostRunCompound(st, Infix(l), "OR", Infix(r), Rpn(l), Rpn(r));
  }

  /** An operator applied to the two values on top of the stack. */
  lemma EvalRunOp(stack: seq<bool>, a: bool, b: bool, op: string, haystack: string)
    requires IsOp(op)
    ensures EvalRun(stack + [a, b], [op], haystack) == stack + [if op == "AND" then a && b else a || b]
  {
    assert [op][1..] == [];
    var s := stack + [a, b];
    assert s[..|s| - 1] == stack + [a];
    assert (stack + [a])[..|stack|] == stack;
  }

  /** Evaluating the reverse Polish forms of two operands and then an operator. */
  lemma EvalRunCompound(stack: seq<bool>, rl: seq<string>, rr: seq<string>, op: string, a: bool, b: bool, haystack: string)
    requires IsOp(op)
    requires EvalRun(stack, rl, haystack) == stack + [a]
    requires EvalRun(stack + [a], rr, haystack) == stack + [a] + [b]
    ensures EvalRun(stack, rl + rr + [op], haystack) == stack + [if op == "AND" then a && b else a || b]
  {
    EvalRunAppend(stack, rl, rr, haystack);
    EvalRunAppend(stack, rl + rr, [op], haystack);
    assert stack + [a] + [b] == stack + [a, b];
    EvalRunOp(stack, a, b, op, haystack);
  }

  /** Evaluating the reverse Polish form of a query pushes its meaning. */
  lemma {:induction false} EvalRunRpn(stack: seq<bool>, q: Query, haystack: string)
    requires ValidQuery(q)
    ensures EvalRun(stack, Rpn(q), haystack) == stack + [Sem(q, haystack)]
    decreases q
  {
    match q
    case Word(w) =>
      assert [w][1..] == [];
    case Both(l, r) =>
      EvalRunRpn(stack, l, haystack);
      EvalRunRpn(stack + [Sem(l, haystack)], r, haystack);
      EvalRunCompound(stack, Rpn(l), Rpn(r), "AND", Sem(l, haystack), Sem(r, haystack), haystack);
    case Either(l, r) =>
      EvalRunRpn(stack, l, haystack);
      EvalRunRpn(stack + [Sem(l, haystack)], r, haystack);
      EvalRunCompound(stack, Rpn(l), Rpn(r), "OR", Sem(l, haystack), Sem(r, haystack), haystack);
  }

  lemma {:induction false} InfixTokens(q: Query)
    requires ValidQuery(q)
    ensures PlainOrParen(Infix(q)) && Infix(q) != []
  {
    match q
    case Word(w) =>
    case Both(l, r) =>
      InfixTokens(l);
      InfixTokens(r);
      PlainOrParenCompound(Infix(l), "AND", Infix(r));
    case Either(l, r) =>
      InfixTokens(l);
      InfixTokens(r);
      PlainOrParenCompound(Infix(l), "OR", Infix(r));
  }

  lemma PlainOrParenCompound(l: seq<string>, op: string, r: seq<string>)
    requires PlainOrParen(l) && PlainOrParen(r) && IsOp(op)
    ensures PlainOrParen(["("] + l + [op] + r + [")"])
  {
    var ts := ["("] + l + [op] + r + [")"];
    forall j | 0 <= j < |ts| ensures IsPlain(ts[j]) || IsParen(ts[j]) {
      if 1 <= j <= |l| {
        assert ts[j] == l[j - 1];
      } else if |l| + 2 <= j < |l| + 2 + |r| {
        assert ts[j] == r[j - |l| - 2];
      }
    }
  }

  /** Tokens separated by single spaces have no whitespace at either end. */
  lemma JoinStripped(ts: seq<string>)
    requires PlainOrParen(ts) && ts != []
    ensures Stripped(Join(" ", ts)) && Join(" ", ts) != []
  {
    forall j | 0 <= j < |ts| ensures IsWord(ts[j]) {
      if IsParen(ts[j]) {
        assert ts[j][0] == '(' || ts[j][0] == ')';
      }
    }
    JoinWordsSingleSpaced(ts);
  }

  /** The tokenizer reads a fully parenthesized query back as its tokens. */
  lemma TokensOfInfix(q: Query)
    requires ValidQuery(q)
    ensures Strip(Join(" ", Infix(q))) == Join(" ", Infix(q)) != []
    ensures Tokens(Join(" ", Infix(q))) == Infix(q)
  {
    InfixTokens(q);
    JoinStripped(Infix(q));
    StripOfStripped(Join(" ", Infix(q)));
    TokensOfJoin(Infix(q));
  }

  /** The shunting-yard conversion turns the infix tokens of a query into its reverse Polish form. */
  lemma PostfixOfInfix(q: Query)
    requires ValidQuery(q)
    ensures Postfix(Infix(q)) == Rpn(q)
  {
    PostRunInfix(PostStart, q);
  }

  /** The evaluator gives the meaning of a query from its reverse Polish form. */
  lemma ValueOfRpn(q: Query, haystack: string)
    requires ValidQuery(q)
    ensures PostfixValue(Rpn(q), haystack) == Sem(q, haystack)
  {
    EvalRunRpn([], q, haystack);
    assert Rpn(q) != [] by {
      assert |EvalRun([], Rpn(q), haystack)| == 1;
    }
  }

  /**
   * The query engine is correct for every fully parenthesized query: typing
   * its tokens separated by spaces selects exactly the texts the query means.
   */
  lemma QueryHolds(q: Query, haystack: string)
    requires ValidQuery(q)
    ensures Holds(Join(" ", Infix(q)), haystack) == Sem(q, haystack)
  {
    TokensOfInfix(q);
    PostfixOfInfix(q);
    ValueOfRpn(q, haystack);
  }

  // ---------------------------------------------------------------------------
  // Precedence, malformed input and quoting
  // ---------------------------------------------------------------------------

  /** A token the converter sends straight to the output. */
  predicate IsLiteral(t: string)
  {
    !IsOp(t) && t != "(" && t != ")"
  }

  /** Tokens separated by single spaces are read back and evaluated as they are. */
  lemma HoldsOfTokens(ts: seq<string>, haystack: string)
    requires PlainOrParen(ts) && ts != []
    ensures Holds(Join(" ", ts), haystack) == PostfixValue(Postfix(ts), haystack)
  {
    JoinStripped(ts);
    StripOfStripped(Join(" ", ts));
    TokensOfJoin(ts);
  }

  lemma PostRunCons(st: PostState, t: string, l: seq<string>)
    ensures PostRun(st, [t] + l) == PostRun(PostStep(st, t), l)
  {
    assert ([t] + l)[1..] == l;
  }

  /** The converter reading five tokens, one step at a time. */
  lemma PostRunFiveTokens(st: PostState, t: seq<string>, s1: PostState, s2: PostState, s3: PostState, s4: PostState, s5: PostState)
    requires |t| == 5
    requires PostStep(st, t[0]) == s1 && PostStep(s1, t[1]) == s2 && PostStep(s2, t[2]) == s3
    requires PostStep(s3, t[3]) == s4 && PostStep(s4, t[4]) == s5
    ensures PostRun(st, t) == s5
  {
    assert PostRun(s4, t[4..]) == s5 by {
      assert t[4..] == [t[4]] + [];
      PostRunCons(s4, t[4], []);
    }
    assert PostRun(s3, t[3..]) == s5 by {
      assert t[3..] == [t[3]] + t[4..];
      PostRunCons(s3, t[3], t[4..]);
    }
    assert PostRun(s2, t[2..]) == s5 by {
      assert t[2..] == [t[2]] + t[3..];
      PostRunCons(s2, t[2], t[3..]);
    }
    assert PostRun(s1, t[1..]) == s5 by {
      assert t[1..] == [t[1]] + t[2..];
      PostRunCons(s1, t[1], t[2..]);
    }
    assert t == [t[0]] + t[1..];
    PostRunCons(st, t[0], t[1..]);
  }

  lemma EvalRunCons(stack: seq<bool>, t: string, l: seq<string>, haystack: string)
    ensures EvalRun(stack, [t] + l, haystack) == EvalRun(EvalStep(stack, t, haystack), l, haystack)
  {
    assert ([t] + l)[1..] == l;
  }

  /** The evaluator reading five tokens onto an empty stack, one step at a time. */
  lemma EvalRunFiveTokens(t: seq<string>, haystack: string, s1: seq<bool>, s2: seq<bool>, s3: seq<bool>, s4: seq<bool>, s5: seq<bool>)
    requires |t| == 5
    requires EvalStep([], t[0], haystack) == s1 && EvalStep(s1, t[1], haystack) == s2
    requires EvalStep(s2, t[2], haystack) == s3 && EvalStep(s3, t[3], haystack) == s4
    requires EvalStep(s4, t[4], haystack) == s5
    ensures EvalRun([], t, haystack) == s5
  {
    assert t == [t[0]] + ([t[1]] + ([t[2]] + ([t[3]] + ([t[4]] + [])))) ;
    EvalRunCons(s4, t[4], [], haystack);
    EvalRunCons(s3, t[3], [t[4]], haystack);
    EvalRunCons(s2, t[2], [t[3]] + [t[4]], haystack);
    EvalRunCons(s1, t[1], [t[2]] + ([t[3]] + [t[4]]), haystack);
    EvalRunCons([], t[0], [t[1]] + ([t[2]] + ([t[3]] + [t[4]])), haystack);
    assert [t[4]] + [] == [t[4]];
  }


  lemma PostStepLiteral(st: PostState, t: string)
    requires IsLiteral(t)
    ensures PostStep(st, t) == PostState(st.output + [t], st.stack)
  {
  }

  /** An operator that finds no operator of at least its precedence on top is pushed. */
  lemma PostStepPush(st: PostState, op: string)
    requires IsOp(op)
    requires st.stack == [] || !IsOp(st.stack[|st.stack| - 1]) || Prec(st.stack[|st.stack| - 1]) < Prec(op)
    ensures PostStep(st, op) == PostState(st.output, st.stack + [op])
  {
  }

  /** An operator that finds a single operator of at least its precedence pops it first. */
  lemma PostStepPopOne(output: seq<string>, top: string, op: string)
    requires IsOp(op) && IsOp(top) && Prec(top) >= Prec(op)
    ensures PostStep(PostState(output, [top]), op) == PostState(output + [top], [op])
  {
    assert [top][..0] == [];
    assert PopOps(output + [top], [], Prec(op)) == PostState(output + [top], []);
    assert [] + [op] == [op];
  }

  /** A list that leaves one value on the stack has that value. */
  lemma PostfixValueOfRun(postfix: seq<string>, haystack: string, v: bool)
    requires postfix != [] && EvalRun([], postfix, haystack) == [v]
    ensures PostfixValue(postfix, haystack) == v
  {
  }

  lemma EvalStepLiteral(stack: seq<bool>, t: string, haystack: string)
    requires !IsOp(t)
    ensures EvalStep(stack, t, haystack) == stack + [MatchToken(t, haystack)]
  {
  }

  lemma EvalStepOp(a: bool, b: bool, op: string, haystack: string)
    requires IsOp(op)
    ensures EvalStep([a, b], op, haystack) == [if op == "AND" then a && b else a || b]
  {
    assert [a, b][..1] == [a];
  }

  lemma EvalStepOpUnder(x: bool, a: bool, b: bool, op: string, haystack: string)
    requires IsOp(op)
    ensures EvalStep([x, a, b], op, haystack) == [x, if op == "AND" then a && b else a || b]
  {
    assert [x, a, b][..2] == [x, a];
    assert [x, a][..1] == [x];
  }

  /** `a OR b AND c` converts to `a b c AND OR`: AND binds tighter. */
  lemma PostfixOrAnd(a: string, b: string, c: string)
    requires IsLiteral(a) && IsLiteral(b) && IsLiteral(c)
    ensures Postfix([a, "OR", b, "AND", c]) == [a, b, c, "AND", "OR"]
  {
    PostStepLiteral(PostStart, a);
    PostStepPush(PostState([a], []), "OR");
    PostStepLiteral(PostState([a], ["OR"]), b);
    PostStepPush(PostState([a, b], ["OR"]), "AND");
    PostStepLiteral(PostState([a, b], ["OR", "AND"]), c);
    assert ["OR"] + ["AND"] == ["OR", "AND"];
    PostRunFiveTokens(PostStart, [a, "OR", b, "AND", c], PostState([a], []), PostState([a], ["OR"]),
                      PostState([a, b], ["OR"]), PostState([a, b], ["OR", "AND"]), PostState([a, b, c], ["OR", "AND"]));
    assert Drain([a, b, c], ["OR", "AND"]) == [a, b, c, "AND", "OR"];
  }

  /** `a AND b OR c` converts to `a b AND c OR`: AND binds tighter. */
  lemma PostfixAndOr(a: string, b: string, c: string)
    requires IsLiteral(a) && IsLiteral(b) && IsLiteral(c)
    ensures Postfix([a, "AND", b, "OR", c]) == [a, b, "AND", c, "OR"]
  {
    PostStepLiteral(PostStart, a);
    PostStepPush(PostState([a], []), "AND");
    PostStepLiteral(PostState([a], ["AND"]), b);
    PostStepPopOne([a, b], "AND", "OR");
    PostStepLiteral(PostState([a, b, "AND"], ["OR"]), c);
    PostRunFiveTokens(PostStart, [a, "AND", b, "OR", c], PostState([a], []), PostState([a], ["AND"]),
                      PostState([a, b], ["AND"]), PostState([a, b, "AND"], ["OR"]), PostState([a, b, "AND", c], ["OR"]));
    assert Drain([a, b, "AND", c], ["OR"]) == [a, b, "AND", c, "OR"];
  }

  /** Operators of equal precedence group to the left. */
  lemma PostfixLeftAssociative(a: string, b: string, c: string, op: string)
    requires IsLiteral(a) && IsLiteral(b) && IsLiteral(c) && IsOp(op)
    ensures Postfix([a, op, b, op, c]) == [a, b, op, c, op]
  {
    PostStepLiteral(PostStart, a);
    PostStepPush(PostState([a], []), op);
    PostStepLiteral(PostState([a], [op]), b);
    PostStepPopOne([a, b], op, op);
    PostStepLiteral(PostState([a, b, op], [op]), c);
    PostRunFiveTokens(PostStart, [a, op, b, op, c], PostState([a], []), PostState([a], [op]),
                      PostState([a, b], [op]), PostState([a, b, op], [op]), PostState([a, b, op, c], [op]));
    assert Drain([a, b, op, c], [op]) == [a, b, op, c, op];
  }

  /** Three bare words with two operators between them are bare words and operators. */
  lemma PlainOrParenFive(a: string, op1: string, b: string, op2: string, c: string)
    requires IsPlain(a) && IsPlain(b) && IsPlain(c) && IsOp(op1) && IsOp(op2)
    ensures PlainOrParen([a, op1, b, op2, c])
  {
    assert IsPlain(op1) && IsPlain(op2);
  }

  lemma ValueOrAnd(a: string, b: string, c: string, haystack: string)
    requires !IsOp(a) && !IsOp(b) && !IsOp(c)
    ensures PostfixValue([a, b, c, "AND", "OR"], haystack)
            == (MatchToken(a, haystack) || (MatchToken(b, haystack) && MatchToken(c, haystack)))
  {
    var ma, mb, mc := MatchToken(a, haystack), MatchToken(b, haystack), MatchToken(c, haystack);
    var t := [a, b, c, "AND", "OR"];
    OrAndStack(t, haystack);
    PostfixValueOfRun(t, haystack, ma || (mb && mc));
  }

  /** The evaluator's five steps over `a b c AND OR`. */
  lemma OrAndSteps(t: seq<string>, haystack: string)
    requires |t| == 5 && !IsOp(t[0]) && !IsOp(t[1]) && !IsOp(t[2]) && t[3] == "AND" && t[4] == "OR"
    ensures EvalStep([], t[0], haystack) == [MatchToken(t[0], haystack)]
    ensures EvalStep([MatchToken(t[0], haystack)], t[1], haystack) == [MatchToken(t[0], haystack), MatchToken(t[1], haystack)]
    ensures EvalStep([MatchToken(t[0], haystack), MatchToken(t[1], haystack)], t[2], haystack) == [MatchToken(t[0], haystack), MatchToken(t[1], haystack), MatchToken(t[2], haystack)]
    ensures EvalStep([MatchToken(t[0], haystack), MatchToken(t[1], haystack), MatchToken(t[2], haystack)], t[3], haystack) == [MatchToken(t[0], haystack), MatchToken(t[1], haystack) && MatchToken(t[2], haystack)]
    ensures EvalStep([MatchToken(t[0], haystack), MatchToken(t[1], haystack) && MatchToken(t[2], haystack)], t[4], haystack) == [MatchToken(t[0], haystack) || (MatchToken(t[1], haystack) && MatchToken(t[2], haystack))]
  {
    var a, b, c := t[0], t[1], t[2];
    var ma, mb, mc := MatchToken(a, haystack), MatchToken(b, haystack), MatchToken(c, haystack);
    EvalStepLiteral([], a, haystack);
    EvalStepLiteral([ma], b, haystack);
    EvalStepLiteral([ma, mb], c, haystack);
    EvalStepOpUnder(ma, mb, mc, "AND", haystack);
    EvalStepOp(ma, mb && mc, "OR", haystack);
  }

  /** The evaluator's stack after `a b c AND OR`. */
  lemma OrAndStack(t: seq<string>, haystack: string)
    requires |t| == 5 && !IsOp(t[0]) && !IsOp(t[1]) && !IsOp(t[2]) && t[3] == "AND" && t[4] == "OR"
    ensures EvalRun([], t, haystack)
            == [MatchToken(t[0], haystack) || (MatchToken(t[1], haystack) && MatchToken(t[2], haystack))]
  {
    var a, b, c := t[0], t[1], t[2];
    var ma, mb, mc := MatchToken(a, haystack), MatchToken(b, haystack), MatchToken(c, haystack);
    assert EvalRun([], t, haystack) == [ma || (mb && mc)] by {
      OrAndSteps(t, haystack);
      EvalRunFiveTokens(t, haystack, [ma], [ma, mb], [ma, mb, mc], [ma, mb && mc], [ma || (mb && mc)]);
    }
  }

  lemma ValueAndOr(a: string, b: string, c: string, haystack: string)
    requires !IsOp(a) && !IsOp(b) && !IsOp(c)
    ensures PostfixValue([a, b, "AND", c, "OR"], haystack)
            == ((MatchToken(a, haystack) && MatchToken(b, haystack)) || MatchToken(c, haystack))
  {
    var ma, mb, mc := MatchToken(a, haystack), MatchToken(b, haystack), MatchToken(c, haystack);
    var t := [a, b, "AND", c, "OR"];
    AndOrStack(t, haystack);
    PostfixValueOfRun(t, haystack, (ma && mb) || mc);
  }

  /** The evaluator's five steps over `a b AND c OR`. */
  lemma AndOrSteps(t: seq<string>, haystack: string)
    requires |t| == 5 && !IsOp(t[0]) && !IsOp(t[1]) && t[2] == "AND" && !IsOp(t[3]) && t[4] == "OR"
    ensures EvalStep([], t[0], haystack) == [MatchToken(t[0], haystack)]
    ensures EvalStep([MatchToken(t[0], haystack)], t[1], haystack) == [MatchToken(t[0], haystack), MatchToken(t[1], haystack)]
    ensures EvalStep([MatchToken(t[0], haystack), MatchToken(t[1], haystack)], t[2], haystack) == [MatchToken(t[0], haystack) && MatchToken(t[1], haystack)]
    ensures EvalStep([MatchToken(t[0], haystack) && MatchToken(t[1], haystack)], t[3], haystack) == [MatchToken(t[0], haystack) && MatchToken(t[1], haystack), MatchToken(t[3], haystack)]
    ensures EvalStep([MatchToken(t[0], haystack) && MatchToken(t[1], haystack), MatchToken(t[3], haystack)], t[4], haystack) == [(MatchToken(t[0], haystack) && MatchToken(t[1], haystack)) || MatchToken(t[3], haystack)]
  {
    var a, b, c := t[0], t[1], t[3];
    var ma, mb, mc := MatchToken(a, haystack), MatchToken(b, haystack), MatchToken(c, haystack);
    EvalStepLiteral([], a, haystack);
    EvalStepLiteral([ma], b, haystack);
    EvalStepOp(ma, mb, "AND", haystack);
    EvalStepLiteral([ma && mb], c, haystack);
    EvalStepOp(ma && mb, mc, "OR", haystack);
  }

  /** The evaluator's stack after `a b AND c OR`. */
  lemma AndOrStack(t: seq<string>, haystack: string)
    requires |t| == 5 && !IsOp(t[0]) && !IsOp(t[1]) && t[2] == "AND" && !IsOp(t[3]) && t[4] == "OR"
    ensures EvalRun([], t, haystack)
            == [(MatchToken(t[0], haystack) && MatchToken(t[1], haystack)) || MatchToken(t[3], haystack)]
  {
    var a, b, c := t[0], t[1], t[3];
    var ma, mb, mc := MatchToken(a, haystack), MatchToken(b, haystack), MatchToken(c, haystack);
    assert EvalRun([], t, haystack) == [(ma && mb) || mc] by {
      AndOrSteps(t, haystack);
      EvalRunFiveTokens(t, haystack, [ma], [ma, mb], [ma && mb], [ma && mb, mc], [(ma && mb) || mc]);
    }
  }

  /** `a OR b AND c` means `a OR (b AND c)`. */
  lemma HoldsOrAnd(a: string, b: string, c: string, haystack: string)
    requires IsPlain(a) && IsPlain(b) && IsPlain(c) && !IsOp(a) && !IsOp(b) && !IsOp(c)
    ensures Holds(Join(" ", [a, "OR", b, "AND", c]), haystack)
            == (MatchToken(a, haystack) || (MatchToken(b, haystack) && MatchToken(c, haystack)))
  {
    assert a[0] != '(' && a[0] != ')' && b[0] != '(' && b[0] != ')' && c[0] != '(' && c[0] != ')';
    PostfixOrAnd(a, b, c);
    PlainOrParenFive(a, "OR", b, "AND", c);
    HoldsOfTokens([a, "OR", b, "AND", c], haystack);
    ValueOrAnd(a, b, c, haystack);
  }

  /** `a AND b OR c` means `(a AND b) OR c`. */
  lemma HoldsAndOr(a: string, b: string, c: string, haystack: string)
    requires IsPlain(a) && IsPlain(b) && IsPlain(c) && !IsOp(a) && !IsOp(b) && !IsOp(c)
    ensures Holds(Join(" ", [a, "AND", b, "OR", c]), haystack)
            == ((MatchToken(a, haystack) && MatchToken(b, haystack)) || MatchToken(c, haystack))
  {
    assert a[0] != '(' && a[0] != ')' && b[0] != '(' && b[0] != ')' && c[0] != '(' && c[0] != ')';
    PostfixAndOr(a, b, c);
    PlainOrParenFive(a, "AND", b, "OR", c);
    HoldsOfTokens([a, "AND", b, "OR", c], haystack);
    ValueAndOr(a, b, c, haystack);
  }

  /** Neither the output nor the stack of the converter holds a ")". */
  predicate NoClose(output: seq<string>, stack: seq<string>)
  {
    ")" !in output && ")" !in stack
  }

  lemma {:induction false} PopOpsNoClose(output: seq<string>, stack: seq<string>, p: int)
    requires NoClose(output, stack)
    ensures NoClose(PopOps(output, stack, p).output, PopOps(output, stack, p).stack)
    decreases |stack|
  {
    if stack != [] && IsOp(stack[|stack| - 1]) && Prec(stack[|stack| - 1]) >= p {
      assert forall t :: t in stack[..|stack| - 1] ==> t in stack;
      PopOpsNoClose(output + [stack[|stack| - 1]], stack[..|stack| - 1], p);
    }
  }

  lemma {:induction false} PopToParenNoClose(output: seq<string>, stack: seq<string>)
    requires NoClose(output, stack)
    ensures NoClose(PopToParen(output, stack).output, PopToParen(output, stack).stack)
    decreases |stack|
  {
    if stack != [] && stack[|stack| - 1] != "(" {
      assert forall t :: t in stack[..|stack| - 1] ==> t in stack;
      PopToParenNoClose(output + [stack[|stack| - 1]], stack[..|stack| - 1]);
    }
  }

  lemma PostStepNoClose(st: PostState, tok: string)
    requires NoClose(st.output, st.stack)
    ensures NoClose(PostStep(st, tok).output, PostStep(st, tok).stack)
  {
    if IsOp(tok) {
      PopOpsNoClose(st.output, st.stack, Prec(tok));
    } else if tok == ")" {
      PopToParenNoClose(st.output, st.stack);
      var p := PopToParen(st.output, st.stack);
      if p.stack != [] {
        assert forall t :: t in p.stack[..|p.stack| - 1] ==> t in p.stack;
      }
    }
  }

  lemma {:induction false} PostRunNoClose(st: PostState, toks: seq<string>)
    requires NoClose(st.output, st.stack)
    ensures NoClose(PostRun(st, toks).output, PostRun(st, toks).stack)
    decreases |toks|
  {
    if toks != [] {
      PostStepNoClose(st, toks[0]);
      PostRunNoClose(PostStep(st, toks[0]), toks[1..]);
    }
  }

  lemma {:induction false} DrainNoClose(output: seq<string>, stack: seq<string>)
    requires NoClose(output, stack)
    ensures ")" !in Drain(output, stack)
    decreases |stack|
  {
    if stack != [] {
      assert forall t :: t in stack[..|stack| - 1] ==> t in stack;
      DrainNoClose(output + [stack[|stack| - 1]], stack[..|stack| - 1]);
    }
  }

  /** A ")" never reaches the postfix list: an unmatched one is dropped. */
  lemma PostfixNoClose(tokens: seq<string>)
    ensures ")" !in Postfix(tokens)
  {
    PostRunNoClose(PostStart, tokens);
    var st := PostRun(PostStart, tokens);
    DrainNoClose(st.output, st.stack);
  }

  /** Literals alone go to the output unchanged. */
  lemma {:induction false} PostRunLiterals(st: PostState, ts: seq<string>)
    requires forall j :: 0 <= j < |ts| ==> IsLiteral(ts[j])
    ensures PostRun(st, ts) == PostState(st.output + ts, st.stack)
    decreases |ts|
  {
    if ts == [] {
      assert st.output + ts == st.output;
    } else {
      PostStepLiteral(st, ts[0]);
      PostRunLiterals(PostState(st.output + [ts[0]], st.stack), ts[1..]);
      assert st.output + [ts[0]] + ts[1..] == st.output + ts;
    }
  }

  /** Literals alone push their matches in order. */
  lemma {:induction false} EvalRunLiterals(stack: seq<bool>, ts: seq<string>, haystack: string)
    requires forall j :: 0 <= j < |ts| ==> !IsOp(ts[j])
    ensures EvalRun(stack, ts, haystack) == stack + seq(|ts|, j requires 0 <= j < |ts| => MatchToken(ts[j], haystack))
    decreases |ts|
  {
    var ms := seq(|ts|, j requires 0 <= j < |ts| => MatchToken(ts[j], haystack));
    if ts == [] {
      assert stack + ms == stack;
    } else {
      EvalStepLiteral(stack, ts[0], haystack);
      EvalRunLiterals(stack + [MatchToken(ts[0], haystack)], ts[1..], haystack);
      var ms' := seq(|ts[1..]|, j requires 0 <= j < |ts[1..]| => MatchToken(ts[1..][j], haystack));
      assert ms == [MatchToken(ts[0], haystack)] + ms';
    }
  }

  /** A stripped, non-blank expression is decided by the postfix form of its tokens. */
  lemma HoldsByTokens(e: string, ts: seq<string>, haystack: string)
    requires Strip(e) == e != [] && Tokens(e) == ts
    ensures Holds(e, haystack) == PostfixValue(Postfix(ts), haystack)
  {
  }

  /** A list of literals is its own postfix form. */
  lemma PostfixLiterals(ts: seq<string>)
    requires forall j :: 0 <= j < |ts| ==> IsLiteral(ts[j])
    ensures Postfix(ts) == ts
  {
    PostRunLiterals(PostStart, ts);
    assert PostStart.output + ts == ts;
  }

  lemma {:induction false} EvalRunLiteralsLast(stack: seq<bool>, ts: seq<string>, haystack: string)
    requires ts != []
    requires forall j :: 0 <= j < |ts| ==> !IsOp(ts[j])
    ensures EvalRun(stack, ts, haystack) != []
    ensures EvalRun(stack, ts, haystack)[|EvalRun(stack, ts, haystack)| - 1] == MatchToken(ts[|ts| - 1], haystack)
    decreases |ts|
  {
    EvalStepLiteral(stack, ts[0], haystack);
    if |ts| == 1 {
      assert ts[1..] == [];
    } else {
      EvalRunLiteralsLast(stack + [MatchToken(ts[0], haystack)], ts[1..], haystack);
    }
  }

  lemma ValueLiterals(ts: seq<string>, haystack: string)
    requires ts != []
    requires forall j :: 0 <= j < |ts| ==> IsLiteral(ts[j])
    ensures PostfixValue(Postfix(ts), haystack) == MatchToken(ts[|ts| - 1], haystack)
  {
    PostfixLiterals(ts);
    EvalRunLiteralsLast([], ts, haystack);
  }

  /**
   * Words with no operator between them, "and" and "or" in lower case among
   * them: only the last word decides the outcome.
   */
  lemma HoldsJuxtaposed(ts: seq<string>, haystack: string)
    requires ts != []
    requires forall j :: 0 <= j < |ts| ==> IsPlain(ts[j]) && !IsOp(ts[j])
    ensures Holds(Join(" ", ts), haystack) == MatchToken(ts[|ts| - 1], haystack)
  {
    PlainWords(ts);
    HoldsOfTokens(ts, haystack);
    ValueLiterals(ts, haystack);
  }

  /** Bare words that are not operators are literals, and the tokenizer keeps them whole. */
  lemma PlainWords(ts: seq<string>)
    requires forall j :: 0 <= j < |ts| ==> IsPlain(ts[j]) && !IsOp(ts[j])
    ensures PlainOrParen(ts)
    ensures forall j :: 0 <= j < |ts| ==> IsLiteral(ts[j])
  {
    forall j | 0 <= j < |ts| ensures IsLiteral(ts[j]) {
      assert ts[j][0] != '(' && ts[j][0] != ')';
    }
  }

  lemma PostfixUnmatchedOpen(a: string)
    requires IsLiteral(a)
    ensures Postfix(["(", a]) == [a, "("]
  {
    PostRunCons(PostStart, "(", [a]);
    PostRunOne(PostState([], ["("]), a);
    assert Drain([a], ["("]) == [a, "("];
  }

  lemma ValueUnmatchedOpen(a: string, haystack: string)
    requires !IsOp(a)
    ensures PostfixValue([a, "("], haystack) == MatchToken("(", haystack)
  {
    EvalRunLiteralsLast([], [a, "("], haystack);
  }

  /** An unmatched "(" is not closed: it is left as a literal that must itself occur. */
  lemma HoldsUnmatchedOpen(a: string, haystack: string)
    requires IsPlain(a) && !IsOp(a)
    ensures Holds(Join(" ", ["(", a]), haystack) == MatchToken("(", haystack)
  {
    assert a[0] != '(' && a[0] != ')';
    PostfixUnmatchedOpen(a);
    assert PlainOrParen(["(", a]);
    HoldsOfTokens(["(", a], haystack);
    ValueUnmatchedOpen(a, haystack);
  }

  lemma PostfixUnmatchedClose(a: string)
    requires IsLiteral(a)
    ensures Postfix([a, ")"]) == [a]
  {
    PostRunCons(PostStart, a, [")"]);
    PostRunOne(PostState([a], []), ")");
  }

  /** An unmatched ")" is ignored. */
  lemma HoldsUnmatchedClose(a: string, haystack: string)
    requires IsPlain(a) && !IsOp(a)
    ensures Postfix([a, ")"]) == [a]
    ensures Holds(Join(" ", [a, ")"]), haystack) == MatchToken(a, haystack)
  {
    assert a[0] != '(' && a[0] != ')';
    PostfixUnmatchedClose(a);
    assert PlainOrParen([a, ")"]);
    HoldsOfTokens([a, ")"], haystack);
    EvalRunLiteralsLast([], [a], haystack);
  }

  /** An empty postfix list holds; an operator with a missing operand reads that operand as false. */
  lemma ValueMissingOperand(a: string, haystack: string)
    requires !IsOp(a)
    ensures PostfixValue([], haystack)
    ensures !PostfixValue(["AND"], haystack) && !PostfixValue(["OR"], haystack)
    ensures !PostfixValue([a, "AND"], haystack)
    ensures PostfixValue([a, "OR"], haystack) == MatchToken(a, haystack)
  {
    var m := MatchToken(a, haystack);
    assert !PostfixValue(["AND"], haystack) by {
      assert ["AND"][1..] == [];
    }
    assert !PostfixValue(["OR"], haystack) by {
      assert ["OR"][1..] == [];
    }
    assert EvalStep([], a, haystack) == [m] by { EvalStepLiteral([], a, haystack); }
    assert !PostfixValue([a, "AND"], haystack) by {
      assert [a, "AND"] == [a] + ["AND"];
      EvalRunCons([], a, ["AND"], haystack);
      assert [m][..0] == [];
      EvalRunCons([m], "AND", [], haystack);
    }
    assert PostfixValue([a, "OR"], haystack) == m by {
      assert [a, "OR"] == [a] + ["OR"];
      EvalRunCons([], a, ["OR"], haystack);
      assert [m][..0] == [];
      EvalRunCons([m], "OR", [], haystack);
    }
  }

  /** A blank expression accepts every text. */
  lemma HoldsBlank(expr: string, haystack: string)
    requires forall i :: 0 <= i < |expr| ==> IsSpace(expr[i])
    ensures Holds(expr, haystack)
  {
    StripEmpty(expr);
  }

  /**
   * A quoted phrase matches as one literal, spaces and parentheses included,
   * after trimming the whitespace inside the quotes.
   */
  lemma HoldsQuoted(p: string, haystack: string)
    requires '"' !in p && IsLiteral(Strip(p)) && Strip(p) != []
    ensures Holds("\"" + p + "\"", haystack) == MatchToken(Strip(p), haystack)
  {
    var e := "\"" + p + "\"";
    var t := Strip(p);
    QuotedExpr(p);
    HoldsByTokens(e, [t], haystack);
    ValueLiterals([t], haystack);
  }

  /** A quoted phrase is already stripped and reads as one token, the stripped phrase. */
  lemma QuotedExpr(p: string)
    requires '"' !in p && Strip(p) != []
    ensures var e := "\"" + p + "\""; Strip(e) == e != [] && Tokens(e) == [Strip(p)]
  {
    var e := "\"" + p + "\"";
    assert e[0] == '"' && e[|e| - 1] == '"';
    StripOfStripped(e);
    QuotedPhrase(p);
  }

  // ---------------------------------------------------------------------------
  // Cards
  // ---------------------------------------------------------------------------

  /** `[v]` when `card[key]` is a string `v`, else nothing. */
  function StrField(card: seq<Field>, key: string): seq<string>
  {
    match Get(card, key)
    case Some(Str(v)) => [v]
    case _ => []
  }

  /** `[Path(v).name]` when `card[key]` is a string `v`, else nothing. */
  function NameField(card: seq<Field>, key: string): seq<string>
  {
    match Get(card, key)
    case Some(Str(v)) => [BaseName(v)]
    case _ => []
  }

  /** The text fields of a card that take part in the search, in this order. */
  function TextBits(card: seq<Field>): seq<string>
  {
    StrField(card, "scanned_text") + NameField(card, "file_path") + NameField(card, "pdf_path")
  }

  /** `_card_text`: the scanned text and the file names, joined by spaces and lowered. */
  function CardText(card: seq<Field>): string
  {
    Lower(Join(" ", TextBits(card)))
  }

  /** Each part of a space-joined list occurs in it. */
  lemma {:induction false} JoinContains(parts: seq<string>, j: nat)
    requires j < |parts|
    ensures Contains(Join(" ", parts), parts[j])
    decreases |parts|
  {
    if |parts| == 1 {
      ContainsAt(parts[0], parts[0], 0);
    } else {
      var rest := Join(" ", parts[1..]);
      var w := parts[0] + " " + rest;
      assert Join(" ", parts) == w;
      if j == 0 {
        assert parts[0] <= w;
        ContainsAt(w, parts[0], 0);
      } else {
        JoinContains(parts[1..], j - 1);
        ContainsShift(parts[0] + " ", rest, parts[j]);
        assert parts[0] + " " + rest == (parts[0] + " ") + rest;
      }
    }
  }

  lemma {:induction false} ContainsShift(prefix: string, hay: string, needle: string)
    requires Contains(hay, needle)
    ensures Contains(prefix + hay, needle)
    decreases |prefix|
  {
    if prefix != [] {
      assert (prefix + hay)[1..] == prefix[1..] + hay;
      ContainsShift(prefix[1..], hay, needle);
      assert Contains((prefix + hay)[1..], needle);
    } else {
      assert prefix + hay == hay;
    }
  }

  lemma ContainsLower(hay: string, needle: string)
    requires Contains(hay, needle)
    ensures Contains(Lower(hay), Lower(needle))
  {
    var i := Find(hay, needle);
    assert Lower(hay)[i..][..|needle|] == Lower(needle);
    ContainsAt(Lower(hay), Lower(needle), i);
  }

  lemma CardTextHas(card: seq<Field>, j: nat)
    requires j < |TextBits(card)|
    ensures Contains(CardText(card), Lower(TextBits(card)[j]))
  {
    JoinContains(TextBits(card), j);
    ContainsLower(Join(" ", TextBits(card)), TextBits(card)[j]);
  }

  /** The searchable text of a card holds its scanned text, lowered, when that is a string. */
  lemma CardTextHasScanned(card: seq<Field>, text: string)
    requires Get(card, "scanned_text") == Some(Str(text))
    ensures Contains(CardText(card), Lower(text))
  {
    assert TextBits(card)[0] == text;
    CardTextHas(card, 0);
  }

  /** The searchable text of a card holds the lowered file name of its image path, when that is a string. */
  lemma CardTextHasFileName(card: seq<Field>, path: string)
    requires Get(card, "file_path") == Some(Str(path))
    ensures Contains(CardText(card), Lower(BaseName(path)))
  {
    var j := |StrField(card, "scanned_text")|;
    assert TextBits(card)[j] == BaseName(path);
    CardTextHas(card, j);
  }

  /** The searchable text of a card holds the lowered file name of its PDF path, when that is a string. */
  lemma CardTextHasPdfName(card: seq<Field>, path: string)
    requires Get(card, "pdf_path") == Some(Str(path))
    ensures Contains(CardText(card), Lower(BaseName(path)))
  {
    var j := |StrField(card, "scanned_text")| + |NameField(card, "file_path")|;
    assert TextBits(card)[j] == BaseName(path);
    CardTextHas(card, j);
  }

  /** Whether `filter_cards` keeps a card with searchable text `text`. */
  predicate Keep(text: string, includeExpr: string, excludeExpr: string)
  {
    Holds(Strip(includeExpr), text) && !(Strip(excludeExpr) != [] && Holds(Strip(excludeExpr), text))
  }

  /** The cards `keep` accepts, in their order. */
  function FilterBy(cards: seq<seq<Field>>, keep: seq<Field> -> bool): seq<seq<Field>>
    decreases |cards|
  {
    if cards == [] then []
    else
      var c := cards[|cards| - 1];
      FilterBy(cards[..|cards| - 1], keep) + (if keep(c) then [c] else [])
  }

  /** One more card extends the result by that card when it is kept. */
  lemma FilterByStep(cards: seq<seq<Field>>, keep: seq<Field> -> bool, i: nat)
    requires i < |cards|
    ensures FilterBy(cards[..i + 1], keep) == FilterBy(cards[..i], keep) + (if keep(cards[i]) then [cards[i]] else [])
  {
    assert cards[..i + 1][..i] == cards[..i];
  }

  /** The decision `filter_cards` takes for each card. */
  function KeepCard(includeExpr: string, excludeExpr: string): seq<Field> -> bool
  {
    c => Keep(CardText(c), includeExpr, excludeExpr)
  }

  /** The cards `filter_cards` returns. */
  function Filtered(cards: seq<seq<Field>>, includeExpr: string, excludeExpr: string): seq<seq<Field>>
  {
    FilterBy(cards, KeepCard(includeExpr, excludeExpr))
  }

  /** `filter_cards`. */
  method FilterCards(cards: seq<seq<Field>>, includeExpr: string, excludeExpr: string) returns (filtered: seq<seq<Field>>)
    ensures filtered == Filtered(cards, includeExpr, excludeExpr)
  {
    var inc := Strip(includeExpr);
    var exc := Strip(excludeExpr);
    ghost var keep := KeepCard(includeExpr, excludeExpr);
    filtered := [];
    for i := 0 to |cards|
      invariant filtered == FilterBy(cards[..i], keep)
    {
      var card := cards[i];
      var text := CardText(card);
      FilterByStep(cards, keep, i);
      var included := EvaluateExpression(inc, text);
      var excluded := false;
      if included && exc != [] {
        excluded := EvaluateExpression(exc, text);
      }
      assert keep(card) == (included && !(exc != [] && excluded)) by {
        assert keep(card) == Keep(text, includeExpr, excludeExpr);
      }
      if !included {
        continue;
      }
      if exc != [] && excluded {
        continue;
      }
      filtered := filtered + [card];
    }
    assert cards[..|cards|] == cards;
  }

  /** A card is in the filtered list exactly when it is among the cards and `keep` accepts it. */
  lemma {:induction false} FilterByMembers(cards: seq<seq<Field>>, keep: seq<Field> -> bool, c: seq<Field>)
    ensures c in FilterBy(cards, keep) <==> c in cards && keep(c)
    decreases |cards|
  {
    if cards != [] {
      FilterByMembers(cards[..|cards| - 1], keep, c);
      assert cards == cards[..|cards| - 1] + [cards[|cards| - 1]];
    }
  }

  /** Filtering keeps the order of the cards: it distributes over concatenation. */
  lemma {:induction false} FilterByAppend(a: seq<seq<Field>>, b: seq<seq<Field>>, keep: seq<Field> -> bool)
    ensures FilterBy(a + b, keep) == FilterBy(a, keep) + FilterBy(b, keep)
    decreases |b|
  {
    if b == [] {
      assert a + b == a;
    } else {
      assert (a + b)[..|a + b| - 1] == a + b[..|b| - 1];
      FilterByAppend(a, b[..|b| - 1], keep);
    }
  }

  /** A test that accepts everything keeps every card. */
  lemma {:induction false} FilterByAll(cards: seq<seq<Field>>, keep: seq<Field> -> bool)
    requires forall c :: keep(c)
    ensures FilterBy(cards, keep) == cards
    decreases |cards|
  {
    if cards != [] {
      FilterByAll(cards[..|cards| - 1], keep);
    }
  }

  /**
   * A card is kept exactly when it passes the include query and does not hit
   * a non-blank exclude query.
   */
  lemma FilteredMembers(cards: seq<seq<Field>>, includeExpr: string, excludeExpr: string, c: seq<Field>)
    ensures c in Filtered(cards, includeExpr, excludeExpr)
            <==> c in cards && Keep(CardText(c), includeExpr, excludeExpr)
  {
    FilterByMembers(cards, KeepCard(includeExpr, excludeExpr), c);
  }

  /** Blank include and exclude queries keep every card, in order. */
  lemma FilteredBlank(cards: seq<seq<Field>>, includeExpr: string, excludeExpr: string)
    requires forall i :: 0 <= i < |includeExpr| ==> IsSpace(includeExpr[i])
    requires forall i :: 0 <= i < |excludeExpr| ==> IsSpace(excludeExpr[i])
    ensures Filtered(cards, includeExpr, excludeExpr) == cards
  {
    StripEmpty(includeExpr);
    StripEmpty(excludeExpr);
    forall c ensures KeepCard(includeExpr, excludeExpr)(c) {
      HoldsBlank(Strip(includeExpr), CardText(c));
    }
    FilterByAll(cards, KeepCard(includeExpr, excludeExpr));
  }

  /** Filtering a concatenation filters each part, keeping their order. */
  lemma FilteredAppend(a: seq<seq<Field>>, b: seq<seq<Field>>, includeExpr: string, excludeExpr: string)
    ensures Filtered(a + b, includeExpr, excludeExpr)
            == Filtered(a, includeExpr, excludeExpr) + Filtered(b, includeExpr, excludeExpr)
  {
    FilterByAppend(a, b, KeepCard(includeExpr, excludeExpr));
  }

  // ---------------------------------------------------------------------------
  // Literal order through the conversion
  // ---------------------------------------------------------------------------

  /** The literal tokens of a list, in order. */
  function LiteralsOf(ts: seq<string>): seq<string>
    decreases |ts|
  {
    if ts == [] then []
    else LiteralsOf(ts[..|ts| - 1]) + (if IsLiteral(ts[|ts| - 1]) then [ts[|ts| - 1]] else [])
  }

  lemma {:induction false} LiteralsOfAppend(a: seq<string>, b: seq<string>)
    ensures LiteralsOf(a + b) == LiteralsOf(a) + LiteralsOf(b)
    decreases |b|
  {
    if b == [] {
      assert a + b == a;
    } else {
      assert (a + b)[..|a + b| - 1] == a + b[..|b| - 1];
      LiteralsOfAppend(a, b[..|b| - 1]);
    }
  }

  lemma LiteralsOfOne(t: string)
    ensures LiteralsOf([t]) == if IsLiteral(t) then [t] else []
  {
    assert [t][..0] == [];
  }

  /** The converter's stack never holds a literal. */
  predicate NoLiteral(stack: seq<string>)
  {
    forall j :: 0 <= j < |stack| ==> !IsLiteral(stack[j])
  }

  /** Moving the top of a literal-free stack to the output adds no literal. */
  lemma MoveTop(output: seq<string>, stack: seq<string>)
    requires stack != [] && NoLiteral(stack)
    ensures LiteralsOf(output + [stack[|stack| - 1]]) == LiteralsOf(output)
    ensures NoLiteral(stack[..|stack| - 1])
  {
    LiteralsOfAppend(output, [stack[|stack| - 1]]);
    LiteralsOfOne(stack[|stack| - 1]);
  }

  lemma {:induction false} PopOpsLiterals(output: seq<string>, stack: seq<string>, p: int)
    requires NoLiteral(stack)
    ensures LiteralsOf(PopOps(output, stack, p).output) == LiteralsOf(output)
    ensures NoLiteral(PopOps(output, stack, p).stack)
    decreases |stack|
  {
    if stack != [] && IsOp(stack[|stack| - 1]) && Prec(stack[|stack| - 1]) >= p {
      MoveTop(output, stack);
      PopOpsLiterals(output + [stack[|stack| - 1]], stack[..|stack| - 1], p);
    }
  }

  lemma {:induction false} PopToParenLiterals(output: seq<string>, stack: seq<string>)
    requires NoLiteral(stack)
    ensures LiteralsOf(PopToParen(output, stack).output) == LiteralsOf(output)
    ensures NoLiteral(PopToParen(output, stack).stack)
    decreases |stack|
  {
    if stack != [] && stack[|stack| - 1] != "(" {
      MoveTop(output, stack);
      PopToParenLiterals(output + [stack[|stack| - 1]], stack[..|stack| - 1]);
    }
  }

  lemma PostStepLiterals(st: PostState, tok: string)
    requires NoLiteral(st.stack)
    ensures LiteralsOf(PostStep(st, tok).output) == LiteralsOf(st.output) + LiteralsOf([tok])
    ensures NoLiteral(PostStep(st, tok).stack)
  {
    LiteralsOfOne(tok);
    if IsOp(tok) {
      PopOpsLiterals(st.output, st.stack, Prec(tok));
    } else if tok == "(" {
    } else if tok == ")" {
      PopToParenLiterals(st.output, st.stack);
    } else {
      LiteralsOfAppend(st.output, [tok]);
    }
  }

  lemma {:induction false} PostRunLiteralOrder(st: PostState, toks: seq<string>)
    requires NoLiteral(st.stack)
    ensures LiteralsOf(PostRun(st, toks).output) == LiteralsOf(st.output) + LiteralsOf(toks)
    ensures NoLiteral(PostRun(st, toks).stack)
    decreases |toks|
  {
    if toks == [] {
      assert LiteralsOf(st.output) + [] == LiteralsOf(st.output);
    } else {
      var s1 := PostStep(st, toks[0]);
      var rest := toks[1..];
      assert PostRun(st, toks) == PostRun(s1, rest);
      PostStepLiterals(st, toks[0]);
      PostRunLiteralOrder(s1, rest);
      assert [toks[0]] + rest == toks;
      LiteralsOfAppend([toks[0]], rest);
      SeqAssoc(LiteralsOf(st.output), LiteralsOf([toks[0]]), LiteralsOf(rest));
    }
  }

  lemma SeqAssoc(a: seq<string>, b: seq<string>, c: seq<string>)
    ensures a + b + c == a + (b + c)
  {
  }

  lemma {:induction false} DrainLiterals(output: seq<string>, stack: seq<string>)
    requires NoLiteral(stack)
    ensures LiteralsOf(Drain(output, stack)) == LiteralsOf(output)
    decreases |stack|
  {
    if stack != [] {
      MoveTop(output, stack);
      DrainLiterals(output + [stack[|stack| - 1]], stack[..|stack| - 1]);
    }
  }

  /** The conversion keeps every literal token, in its input order, and adds none. */
  lemma PostfixLiteralOrder(tokens: seq<string>)
    ensures LiteralsOf(Postfix(tokens)) == LiteralsOf(tokens)
  {
    PostRunLiteralOrder(PostStart, tokens);
    var st := PostRun(PostStart, tokens);
    DrainLiterals(st.output, st.stack);
  }
}
