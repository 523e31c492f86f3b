/**
 * Properties of the lexer's token stream: one request has exactly one
 * possible outcome, the literals cover the input apart from whitespace,
 * an embedded NUL ends the stream, and the token stream of a
 * concatenation splits at token boundaries.
 */
module LexerProperties {
  import opened Options
  import opened Tokens
  import opened Lexing

  /**
   * The kind the dispatch assigns to a non-sentinel, non-whitespace character,
   * looking at that one character only. `Step` also decides how far the token
   * reaches; this function is the part of that decision that
   * `WellFormedLiteral` relates to a token's first character.
   */
  function KindFor(c: char): TokenKind
  {
    if SymbolKind(c).Some? then SymbolKind(c).value
    else if IsLetter(c) then Ident
    else if IsDigit(c) then Literal(Int)
    else Unknown
  }

  /** A produced token contains neither whitespace nor the sentinel, and its first character alone decides its kind. */
  lemma WellFormedLiteral(t: Token)
    requires WellFormed(t)
    ensures |t.literal| > 0 && t.kind == KindFor(t.literal[0])
    ensures forall k :: 0 <= k < |t.literal| ==> !IsWhitespace(t.literal[k]) && t.literal[k] != NUL
  {
    var c := t.literal[0];
    CharClassesDisjoint(c);
    if Symbol(t.kind).Some? {
      SymbolTableAgrees(c, t.kind);
    }
    forall k | 0 <= k < |t.literal|
      ensures !IsWhitespace(t.literal[k]) && t.literal[k] != NUL
    {
      CharClassesDisjoint(t.literal[k]);
    }
  }

  /** The token of a scan that reads an identifier or a number spans a maximal run of its class. */
  lemma EmitRun(s: string, i: nat, sc: Scan, cls: CharClass)
    requires IsScan(s, i, sc) && sc.Emit?
    requires cls == Letter ==> sc.token.kind == Ident
    requires cls == Digit ==> sc.token.kind == Literal(Int)
    requires cls != Whitespace
    ensures IsRun(s, sc.start, sc.next, cls)
  {
    forall k | sc.start <= k < sc.next
      ensures k < |s| && InClass(s[k], cls)
    {
      assert s[k] == sc.token.literal[k - sc.start];
    }
  }

  /**
   * A request has exactly one outcome that meets the specification `IsScan`,
   * so `Step` (which meets it) is the only behaviour the specification allows.
   */
  lemma ScanUnique(s: string, i: nat, a: Scan, b: Scan)
    requires IsScan(s, i, a) && IsScan(s, i, b)
    ensures a == b
  {
    var sa := if a.Done? then a.at else a.start;
    var sb := if b.Done? then b.at else b.start;
    RunUnique(s, i, sa, sb, Whitespace);
    if a.Emit? {
      WellFormedLiteral(a.token);
      assert a.token.literal[0] == s[a.start];
    }
    if b.Emit? {
      WellFormedLiteral(b.token);
      assert b.token.literal[0] == s[b.start];
    }
    if a.Emit? && b.Emit? {
      var kind := a.token.kind;
      assert b.token.kind == kind;
      if kind == Ident {
        EmitRun(s, i, a, Letter);
        EmitRun(s, i, b, Letter);
        RunUnique(s, a.start, a.next, b.next, Letter);
      } else if kind == Literal(Int) {
        EmitRun(s, i, a, Digit);
        EmitRun(s, i, b, Digit);
        RunUnique(s, a.start, a.next, b.next, Digit);
      } else {
        assert |a.token.literal| == 1 && |b.token.literal| == 1;
      }
    }
  }

  /** `Step` is characterised by its specification: a scan meets `IsScan` exactly when it is `Step`'s. */
  lemma StepIsTheScan(s: string, i: nat, sc: Scan)
    ensures IsScan(s, i, sc) <==> sc == Step(s, i)
  {
    StepMeetsSpec(s, i);
    if IsScan(s, i, sc) {
      ScanUnique(s, i, sc, Step(s, i));
    }
  }

  /** The concatenation of the literals of a token sequence. */
  function Literals(ts: seq<Token>): string
  {
    if ts == [] then [] else ts[0].literal + Literals(ts[1..])
  }

  /** The input with every whitespace character dropped. */
  function WithoutWhitespace(s: string): string
  {
    if s == [] then []
    else (if IsWhitespace(s[0]) then [] else [s[0]]) + WithoutWhitespace(s[1..])
  }

  lemma {:induction false} WithoutWhitespaceAppend(a: string, b: string)
    ensures WithoutWhitespace(a + b) == WithoutWhitespace(a) + WithoutWhitespace(b)
  {
    if a == [] {
      assert a + b == b;
    } else {
      assert (a + b)[1..] == a[1..] + b;
      WithoutWhitespaceAppend(a[1..], b);
    }
  }

  lemma {:induction false} WithoutWhitespaceOfBlank(a: string)
    requires forall k :: 0 <= k < |a| ==> IsWhitespace(a[k])
    ensures WithoutWhitespace(a) == []
  {
    if a != [] {
      WithoutWhitespaceOfBlank(a[1..]);
    }
  }

  lemma {:induction false} WithoutWhitespaceOfSolid(a: string)
    requires forall k :: 0 <= k < |a| ==> !IsWhitespace(a[k])
    ensures WithoutWhitespace(a) == a
  {
    if a != [] {
      WithoutWhitespaceOfSolid(a[1..]);
    }
  }

  /** In a NUL-free input the sentinel is met only past the end. */
  lemma NulFreeEnd(s: string, j: nat)
    requires NUL !in s
    ensures CharAt(s, j) == NUL ==> j >= |s|
  {
    if j < |s| {
      assert s[j] in s;
    }
  }

  /** What one scan removes from a NUL-free input: whitespace only, then exactly its token's literal. */
  lemma CoverageStep(s: string, i: nat, sc: Scan)
    requires NUL !in s && i <= |s| && IsScan(s, i, sc)
    ensures sc.Done? ==> WithoutWhitespace(s[i..]) == []
    ensures sc.Emit? ==> WithoutWhitespace(s[i..]) == sc.token.literal + WithoutWhitespace(s[sc.next..])
  {
    match sc
    case Done(at) =>
      NulFreeEnd(s, at);
      WithoutWhitespaceOfBlank(s[i..]);
    case Emit(t, start, next) =>
      WellFormedLiteral(t);
      WithoutWhitespaceSplit(s, i, start, next);
  }

  /** Dropping the whitespace of `s[i..]`, where `s[i..start]` is blank and `s[start..next]` has none, keeps exactly `s[start..next]` before the rest. */
  lemma WithoutWhitespaceSplit(s: string, i: nat, start: nat, next: nat)
    requires i <= start <= next <= |s|
    requires forall k :: i <= k < start ==> IsWhitespace(s[k])
    requires forall k :: 0 <= k < next - start ==> !IsWhitespace(s[start..next][k])
    ensures WithoutWhitespace(s[i..]) == s[start..next] + WithoutWhitespace(s[next..])
  {
    var blank, solid, rest := s[i..start], s[start..next], s[next..];
    assert s[i..] == blank + solid + rest;
    WithoutWhitespaceAppend(blank + solid, rest);
    WithoutWhitespaceAppend(blank, solid);
    WithoutWhitespaceOfBlank(blank);
    WithoutWhitespaceOfSolid(solid);
  }

  /** From any position of a NUL-free input, the literals of the remaining tokens are the rest of the input minus its whitespace. */
  lemma {:induction false} CoverageFrom(s: string, i: nat)
    requires NUL !in s && i <= |s|
    ensures Literals(TokenizeFrom(s, i)) == WithoutWhitespace(s[i..])
    decreases |s| - i
  {
    var sc := Step(s, i);
    StepMeetsSpec(s, i);
    CoverageStep(s, i, sc);
    if sc.Emit? {
      var rest := TokenizeFrom(s, sc.next);
      CoverageFrom(s, sc.next);
      assert TokenizeFrom(s, i) == [sc.token] + rest;
      assert ([sc.token] + rest)[1..] == rest;
    }
  }

  /** Nothing but whitespace is lost: for NUL-free input the literals, in order, spell the input with whitespace removed. */
  lemma Coverage(s: string)
    requires NUL !in s
    ensures Literals(Tokenize(s)) == WithoutWhitespace(s)
  {
    CoverageFrom(s, 0);
  }

  /** A maximal run that starts inside `s` keeps its meaning in any `u` that agrees with `s` up to and including the sentinel position. */
  lemma RunTransfer(s: string, u: string, a: nat, b: nat, cls: CharClass)
    requires |s| < |u| && u[..|s|] == s && u[|s|] == NUL
    requires a <= |s| && IsRun(s, a, b, cls)
    ensures b <= |s| && IsRun(u, a, b, cls)
  {
    forall k | a <= k < b
      ensures InClass(u[k], cls)
    {
      assert u[k] == u[..|s|][k];
    }
    if b < |s| {
      assert u[b] == u[..|s|][b];
    }
  }

  /** A scan inside `s` is also a scan of `s + [NUL] + r`, and it never reaches past the NUL. */
  lemma ScanBeforeNul(s: string, u: string, i: nat, sc: Scan)
    requires |s| < |u| && u[..|s|] == s && u[|s|] == NUL && i <= |s|
    requires IsScan(s, i, sc)
    ensures IsScan(u, i, sc)
    ensures sc.Emit? ==> sc.next <= |s|
  {
    match sc
    case Done(at) =>
      RunTransfer(s, u, i, at, Whitespace);
    case Emit(t, start, next) =>
      RunTransfer(s, u, i, start, Whitespace);
      assert u[start..next] == s[start..next] by {
        forall k | 0 <= k < next - start
          ensures u[start..next][k] == s[start..next][k]
        {
          assert u[start + k] == u[..|s|][start + k];
        }
      }
      if next < |s| {
        assert u[next] == u[..|s|][next];
      }
  }

  lemma {:induction false} TokenizeBeforeNul(s: string, u: string, i: nat)
    requires |s| < |u| && u[..|s|] == s && u[|s|] == NUL && i <= |s|
    ensures TokenizeFrom(u, i) == TokenizeFrom(s, i)
    decreases |s| - i
  {
    var sc := Step(s, i);
    StepMeetsSpec(s, i);
    StepMeetsSpec(u, i);
    ScanBeforeNul(s, u, i, sc);
    ScanUnique(u, i, sc, Step(u, i));
    if sc.Emit? {
      TokenizeBeforeNul(s, u, sc.next);
    }
  }

  /** An embedded NUL ends the token stream: nothing after it is ever scanned. */
  lemma NulEndsStream(s: string, r: string)
    ensures Tokenize(s + [NUL] + r) == Tokenize(s)
  {
    var u := s + [NUL] + r;
    assert u[..|s|] == s;
    TokenizeBeforeNul(s, u, 0);
  }

  /** `Scan` moved `d` positions to the right. */
  function Shift(sc: Scan, d: nat): Scan
  {
    match sc
    case Done(at) => Done(d + at)
    case Emit(t, start, next) => Emit(t, d + start, d + next)
  }

  /** A maximal run of `r` is, moved `d` positions right, a maximal run of any `u` whose suffix from `d` is `r`. */
  lemma RunShift(u: string, d: nat, r: string, a: nat, b: nat, cls: CharClass)
    requires d <= |u| && u[d..] == r
    requires IsRun(r, a, b, cls)
    ensures IsRun(u, d + a, d + b, cls)
  {
    forall k | d + a <= k < d + b
      ensures InClass(u[k], cls)
    {
      assert u[k] == r[k - d];
    }
    if b < |r| {
      assert u[d + b] == r[b];
    }
  }

  /** A scan of `r` from `i` is, shifted, a scan of `u` from `d + i` whenever `u[d..] == r`. */
  lemma ScanShift(u: string, d: nat, r: string, i: nat, sc: Scan)
    requires d <= |u| && u[d..] == r
    requires IsScan(r, i, sc)
    ensures IsScan(u, d + i, Shift(sc, d))
  {
    match sc
    case Done(at) =>
      RunShift(u, d, r, i, at, Whitespace);
      if at < |r| {
        assert u[d + at] == r[at];
      }
    case Emit(t, start, next) =>
      RunShift(u, d, r, i, start, Whitespace);
      assert u[d + start..d + next] == r[start..next];
      if next < |r| {
        assert u[d + next] == r[next];
      }
  }

  /** One unfolding of the token stream, through any scan that meets the specification. */
  lemma TokenizeFromScan(s: string, i: nat, sc: Scan)
    requires IsScan(s, i, sc)
    ensures sc.Done? ==> TokenizeFrom(s, i) == []
    ensures sc.Emit? ==> TokenizeFrom(s, i) == [sc.token] + TokenizeFrom(s, sc.next)
  {
    StepMeetsSpec(s, i);
    ScanUnique(s, i, sc, Step(s, i));
  }

  /** A request on a suffix `r` of `u` is the same request on `u`, shifted. */
  lemma StepSuffix(u: string, d: nat, r: string, i: nat)
    requires d <= |u| && u[d..] == r
    ensures Step(u, d + i) == Shift(Step(r, i), d)
  {
    var sc := Step(r, i);
    StepMeetsSpec(r, i);
    ScanShift(u, d, r, i, sc);
    StepIsTheScan(u, d + i, Shift(sc, d));
  }

  /** Scanning a suffix `r` of `u` gives the tokens that scanning `u` from the same place gives. */
  lemma {:induction false} TokenizeSuffix(u: string, d: nat, r: string, i: nat)
    requires d <= |u| && u[d..] == r
    ensures TokenizeFrom(u, d + i) == TokenizeFrom(r, i)
    decreases |r| - i
  {
    StepSuffix(u, d, r, i);
    match Step(r, i)
    case Done(_) =>
      assert TokenizeFrom(u, d + i) == [];
    case Emit(t, start, next) =>
      assert Step(u, d + i) == Emit(t, d + start, d + next);
      TokenizeSuffix(u, d, r, next);
      assert TokenizeFrom(u, d + i) == [t] + TokenizeFrom(u, d + next);
  }

  /** Scanning the `r` part of `p + r` from a position inside it gives the tokens of `r` from that position. */
  lemma TokenizeShift(p: string, r: string, i: nat)
    ensures TokenizeFrom(p + r, |p| + i) == TokenizeFrom(r, i)
  {
    assert (p + r)[|p|..] == r;
    TokenizeSuffix(p + r, |p|, r, i);
  }

  /** Leading whitespace produces nothing. */
  lemma SkipsWhitespace(c: char, r: string)
    requires IsWhitespace(c)
    ensures Tokenize([c] + r) == Tokenize(r)
  {
    var u := [c] + r;
    var sc := Step(u, 1);
    StepMeetsSpec(u, 1);
    assert IsScan(u, 0, sc) by {
      var start := if sc.Done? then sc.at else sc.start;
      assert IsRun(u, 1, start, Whitespace);
      assert u[0] == c;
    }
    TokenizeFromScan(u, 0, sc);
    TokenizeFromScan(u, 1, sc);
    TokenizeShift([c], r, 0);
  }

  /** A run of whitespace produces nothing. */
  lemma {:induction false} SkipsBlank(w: string, r: string)
    requires forall k :: 0 <= k < |w| ==> IsWhitespace(w[k])
    ensures Tokenize(w + r) == Tokenize(r)
  {
    if w == [] {
      assert w + r == r;
    } else {
      assert w + r == [w[0]] + (w[1..] + r);
      SkipsWhitespace(w[0], w[1..] + r);
      SkipsBlank(w[1..], r);
    }
  }

  /** A token at the very front of `w + r` whose literal is all of `w`: the stream is that token, then the stream of `r`. */
  lemma LeadingToken(w: string, r: string, t: Token)
    requires IsScan(w + r, 0, Emit(t, 0, |w|))
    ensures Tokenize(w + r) == [t] + Tokenize(r)
  {
    var u := w + r;
    assert u[|w|..] == r;
    TokenizeFromScan(u, 0, Emit(t, 0, |w|));
    TokenizeSuffix(u, |w|, r, 0);
  }

  /** A symbol becomes its one-character token, and scanning continues after it. */
  lemma SymbolToken(c: char, k: TokenKind, r: string)
    requires SymbolKind(c) == Some(k)
    ensures Tokenize([c] + r) == [Token(k, [c])] + Tokenize(r)
  {
    var u := [c] + r;
    CharClassesDisjoint(c);
    SymbolTableAgrees(c, k);
    assert u[0] == c && u[0..1] == [c];
    LeadingToken([c], r, Token(k, [c]));
  }

  /**
   * A character that no rule claims becomes a one-character `Unknown` token,
   * and scanning continues after it. The classes are the ASCII ones, so a
   * non-ASCII letter also counts as unclaimed here, where the source would
   * start an identifier: the lemma describes the source for ASCII `c` at least.
   */
  lemma UnknownToken(c: char, r: string)
    requires IsOther(c)
    ensures Tokenize([c] + r) == [Token(Unknown, [c])] + Tokenize(r)
  {
    var u := [c] + r;
    assert u[0] == c && u[0..1] == [c];
    LeadingToken([c], r, Token(Unknown, [c]));
  }

  /** A run of letters is a single identifier however long it is (maximal munch), when the next character cannot extend it. */
  lemma WordIsOneIdent(w: string, r: string)
    requires |w| > 0 && forall k :: 0 <= k < |w| ==> IsLetter(w[k])
    requires r == [] || !IsLetter(r[0])
    ensures Tokenize(w + r) == [Token(Ident, w)] + Tokenize(r)
  {
    var u := w + r;
    CharClassesDisjoint(w[0]);
    assert u[0] == w[0] && u[0..|w|] == w;
    assert CharAt(u, |w|) == CharAt(r, 0);
    LeadingToken(w, r, Token(Ident, w));
  }

  /** A run of digits is a single integer literal, when the next character cannot extend it. */
  lemma DigitsAreOneInt(w: string, r: string)
    requires |w| > 0 && forall k :: 0 <= k < |w| ==> IsDigit(w[k])
    requires r == [] || !IsDigit(r[0])
    ensures Tokenize(w + r) == [Token(Literal(Int), w)] + Tokenize(r)
  {
    var u := w + r;
    CharClassesDisjoint(w[0]);
    assert u[0] == w[0] && u[0..|w|] == w;
    assert CharAt(u, |w|) == CharAt(r, 0);
    LeadingToken(w, r, Token(Literal(Int), w));
  }

}
