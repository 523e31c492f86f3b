/**
 * The lexer: a cursor over the input that, on each request, skips
 * whitespace and produces one token, or nothing once the current
 * character is the NUL sentinel.
 *
 * The pure part states what one request does (`Step`) and what the
 * whole token stream is (`Tokenize`); the class `Lexer` is the cursor
 * itself, whose methods are proved against those functions.
 */
module Lexing {
  import opened Options
  import opened Tokens

  /** The sentinel held in `ch` once the cursor is past the end of the input. */
  const NUL: char := '\0'

  /** The input is ASCII: the only text on which the cursor's byte bound and character index agree. */
  predicate IsAscii(s: string)
  {
    forall i :: 0 <= i < |s| ==> s[i] as int < 128
  }

  /** The character under a cursor at position `i`: `s[i]`, or the sentinel past the end. */
  function CharAt(s: string, i: nat): (c: char)
    ensures i >= |s| ==> c == NUL
  {
    if i < |s| then s[i] else NUL
  }

  /** An identifier character: an (ASCII) alphabetic character or an underscore. */
  predicate IsLetter(c: char)
  {
    'a' <= c <= 'z' || 'A' <= c <= 'Z' || c == '_'
  }

  /** An ASCII decimal digit. */
  predicate IsDigit(c: char)
  {
    '0' <= c <= '9'
  }

  /** A whitespace character: the space, or one of TAB, LF, VT, FF, CR (U+0009 to U+000D). */
  predicate IsWhitespace(c: char)
  {
    c == ' ' || '\t' <= c <= '\r'
  }

  /** The number of one-character arms in the dispatch. */
  const SymbolArms: nat := 27

  /** The `n`-th one-character arm of the dispatch, in the order the source lists them: the character and the kind it produces. */
  function SymbolArm(n: nat): (char, TokenKind)
    requires n < SymbolArms
  {
    match n
    case 0 => (';', Semi)
    case 1 => (',', Comma)
    case 2 => ('.', Dot)
    case 3 => ('(', OpenParen)
    case 4 => (')', CloseParen)
    case 5 => ('{', OpenBrace)
    case 6 => ('}', CloseBrace)
    case 7 => ('[', OpenBracket)
    case 8 => (']', CloseBracket)
    case 9 => ('@', At)
    case 10 => ('#', Pound)
    case 11 => ('~', Tilde)
    case 12 => ('!', Bang)
    case 13 => ('=', Eq)
    case 14 => ('+', Plus)
    case 15 => ('-', Minus)
    case 16 => ('*', Star)
    case 17 => ('/', Slash)
    case 18 => ('<', Lt)
    case 19 => ('>', Gt)
    case 20 => ('&', And)
    case 21 => ('|', Or)
    case 22 => ('^', Caret)
    case 23 => (':', Colon)
    case 24 => ('?', Question)
    case 25 => ('$', Dollar)
    case _ => ('%', Percent)
  }

  /** The dispatch on the one-character arms from the `n`-th on: the kind of the first arm whose character is `c`. */
  function SymbolKindFrom(c: char, n: nat): Option<TokenKind>
    decreases SymbolArms - n
  {
    if n >= SymbolArms then None
    else if SymbolArm(n).0 == c then Some(SymbolArm(n).1)
    else SymbolKindFrom(c, n + 1)
  }

  /** The dispatch table of the one-character tokens. */
  function SymbolKind(c: char): Option<TokenKind>
  {
    SymbolKindFrom(c, 0)
  }

  /** A character that none of the rules claims: it becomes an `Unknown` token. */
  predicate IsOther(c: char)
  {
    c != NUL && !IsWhitespace(c) && SymbolKind(c).None? && !IsLetter(c) && !IsDigit(c)
  }

  /** Each arm produces the kind whose own symbol is the arm's character. */
  lemma ArmAgrees(n: nat)
    requires n < SymbolArms
    ensures Symbol(SymbolArm(n).1) == Some(SymbolArm(n).0)
  {
  }

  /** The arm that produces the one-character kind `k`, or `SymbolArms` for a kind that no arm produces. */
  function ArmOf(k: TokenKind): (n: nat)
    ensures n < SymbolArms <==> Symbol(k).Some?
    ensures n < SymbolArms ==> SymbolArm(n).1 == k
  {
    match k
    case Semi => 0
    case Comma => 1
    case Dot => 2
    case OpenParen => 3
    case CloseParen => 4
    case OpenBrace => 5
    case CloseBrace => 6
    case OpenBracket => 7
    case CloseBracket => 8
    case At => 9
    case Pound => 10
    case Tilde => 11
    case Bang => 12
    case Eq => 13
    case Plus => 14
    case Minus => 15
    case Star => 16
    case Slash => 17
    case Lt => 18
    case Gt => 19
    case And => 20
    case Or => 21
    case Caret => 22
    case Colon => 23
    case Question => 24
    case Dollar => 25
    case Percent => 26
    case _ => SymbolArms
  }

  /** Whatever the dispatch finds for `c` is a kind whose symbol is `c`. */
  lemma {:induction false} FoundArmAgrees(c: char, n: nat, k: TokenKind)
    ensures SymbolKindFrom(c, n) == Some(k) ==> Symbol(k) == Some(c)
    decreases SymbolArms - n
  {
    if n < SymbolArms {
      ArmAgrees(n);
      FoundArmAgrees(c, n + 1, k);
    }
  }

  /** The dispatch, started at or before the arm of `k`, finds `k` for the symbol of `k`. */
  lemma {:induction false} ReachesArm(c: char, k: TokenKind, n: nat)
    requires Symbol(k) == Some(c) && n <= ArmOf(k)
    ensures SymbolKindFrom(c, n) == Some(k)
    decreases ArmOf(k) - n
  {
    ArmAgrees(n);
    if SymbolArm(n).0 == c {
      SymbolInjective(SymbolArm(n).1, k);
    } else {
      ReachesArm(c, k, n + 1);
    }
  }

  /** The dispatch table and the kinds' own symbols are the same relation, read in both directions. */
  lemma SymbolTableAgrees(c: char, k: TokenKind)
    ensures SymbolKind(c) == Some(k) <==> Symbol(k) == Some(c)
  {
    FoundArmAgrees(c, 0, k);
    if Symbol(k) == Some(c) {
      ReachesArm(c, k, 0);
    }
  }

  /** The character classes the lexer dispatches on do not overlap, and none contains the sentinel. */
  lemma CharClassesDisjoint(c: char)
    ensures IsLetter(c) ==> !IsDigit(c) && !IsWhitespace(c) && SymbolKind(c).None? && c != NUL
    ensures IsDigit(c) ==> !IsWhitespace(c) && SymbolKind(c).None? && c != NUL
    ensures IsWhitespace(c) ==> SymbolKind(c).None? && c != NUL
    ensures SymbolKind(c).Some? ==> c != NUL
  {
    if SymbolKind(c).Some? {
      SymbolTableAgrees(c, SymbolKind(c).value);
    }
  }

  /** The three character classes that the scanning loops run over. */
  datatype CharClass = Whitespace | Letter | Digit

  predicate InClass(c: char, cls: CharClass)
  {
    match cls
    case Whitespace => IsWhitespace(c)
    case Letter => IsLetter(c)
    case Digit => IsDigit(c)
  }

  /** `s[a..b]` is a maximal run of class `cls` starting at `a`: all of it is in the class, and the character after it is not. */
  predicate IsRun(s: string, a: nat, b: nat, cls: CharClass)
  {
    a <= b && (a < b ==> b <= |s|) &&
    (forall k :: a <= k < b ==> InClass(s[k], cls)) &&
    !InClass(CharAt(s, b), cls)
  }

  /** Where a loop that advances while the current character is in `cls` stops, when started at `i`. */
  function RunEnd(s: string, i: nat, cls: CharClass): (j: nat)
    ensures i <= j && (i < j ==> j <= |s|)
    decreases |s| - i
  {
    if i < |s| && InClass(s[i], cls) then RunEnd(s, i + 1, cls) else i
  }

  /** The loop stops exactly at the end of the maximal run of `cls` that starts at `i`. */
  lemma {:induction false} RunEndIsRun(s: string, i: nat, cls: CharClass)
    ensures IsRun(s, i, RunEnd(s, i, cls), cls)
    decreases |s| - i
  {
    if i < |s| && InClass(s[i], cls) {
      RunEndIsRun(s, i + 1, cls);
    }
  }

  /** A maximal run is unique: every loop over `cls` from `a` stops at the same place. */
  lemma RunUnique(s: string, a: nat, b1: nat, b2: nat, cls: CharClass)
    requires IsRun(s, a, b1, cls) && IsRun(s, a, b2, cls)
    ensures b1 == b2
  {
  }

  /**
   * A token as the lexer can produce it: an identifier is a non-empty run of
   * letters, an integer literal a non-empty run of digits, a one-character
   * kind carries its own symbol, and `Unknown` carries one unclaimed character.
   */
  predicate WellFormed(t: Token)
  {
    match t.kind
    case Ident => |t.literal| > 0 && forall k :: 0 <= k < |t.literal| ==> IsLetter(t.literal[k])
    case Literal(lk) => lk == Int && |t.literal| > 0 && forall k :: 0 <= k < |t.literal| ==> IsDigit(t.literal[k])
    case Unknown => |t.literal| == 1 && IsOther(t.literal[0])
    case WhiteSpace => false
    case Eof => false
    case _ => Symbol(t.kind).Some? && t.literal == [Symbol(t.kind).value]
  }

  /** The outcome of one request: exhaustion at a position, or a token read from `s[start..next]`. */
  datatype Scan = Done(at: nat) | Emit(token: Token, start: nat, next: nat)

  /**
   * The declarative specification of one request from position `i`:
   * whitespace is skipped up to `start`; then either the sentinel is
   * reached, or a well-formed token whose literal is exactly the input
   * between `start` and `next` is produced, and identifier and number runs
   * are maximal (maximal munch).
   */
  predicate IsScan(s: string, i: nat, sc: Scan)
  {
    match sc
    case Done(at) =>
      IsRun(s, i, at, Whitespace) && CharAt(s, at) == NUL
    case Emit(t, start, next) =>
      IsRun(s, i, start, Whitespace) && start < next <= |s| &&
      t.literal == s[start..next] && WellFormed(t) &&
      (t.kind == Ident ==> !IsLetter(CharAt(s, next))) &&
      (t.kind == Literal(Int) ==> !IsDigit(CharAt(s, next)))
  }

  /** One request of the lexer from position `i`: skip whitespace, stop at the sentinel, or dispatch. */
  function Step(s: string, i: nat): (sc: Scan)
    ensures sc.Emit? ==> i < sc.next <= |s|
  {
    var j := RunEnd(s, i, Whitespace);
    var c := CharAt(s, j);
    if c == NUL then Done(j)
    else
      match SymbolKind(c)
      case Some(k) =>
        Emit(NewToken(k, [c]), j, j + 1)
      case None =>
        if IsLetter(c) then
          var k := RunEnd(s, j, Letter);
          Emit(NewToken(Ident, s[j..k]), j, k)
        else if IsDigit(c) then
          var k := RunEnd(s, j, Digit);
          Emit(NewToken(Literal(Int), s[j..k]), j, k)
        else
          Emit(NewToken(Unknown, [c]), j, j + 1)
  }

  /** The tokens produced by repeated requests from position `i` until exhaustion. */
  function TokenizeFrom(s: string, i: nat): (ts: seq<Token>)
    ensures i <= |s| ==> |ts| <= |s| - i
    decreases |s| - i
  {
    match Step(s, i)
    case Done(_) => []
    case Emit(t, _, next) => [t] + TokenizeFrom(s, next)
  }

  /** `Step` meets the declarative specification of a request. */
  lemma StepMeetsSpec(s: string, i: nat)
    ensures IsScan(s, i, Step(s, i))
  {
    var j := RunEnd(s, i, Whitespace);
    RunEndIsRun(s, i, Whitespace);
    var c := CharAt(s, j);
    if c != NUL {
      CharClassesDisjoint(c);
      match SymbolKind(c)
      case Some(k) =>
        SymbolTableAgrees(c, k);
        assert s[j..j + 1] == [c];
      case None =>
        if IsLetter(c) {
          RunEndIsRun(s, j, Letter);
        } else if IsDigit(c) {
          RunEndIsRun(s, j, Digit);
        } else {
          assert s[j..j + 1] == [c];
        }
    }
  }

  /** Every token of the stream is well formed. */
  lemma {:induction false} TokenizeWellFormed(s: string, i: nat)
    ensures forall k :: 0 <= k < |TokenizeFrom(s, i)| ==> WellFormed(TokenizeFrom(s, i)[k])
    decreases |s| - i
  {
    StepMeetsSpec(s, i);
    match Step(s, i)
    case Done(_) =>
    case Emit(t, _, next) =>
      TokenizeWellFormed(s, next);
      assert TokenizeFrom(s, i) == [t] + TokenizeFrom(s, next);
  }

  /** The whole token stream of an input. */
  function Tokenize(s: string): seq<Token>
  {
    TokenizeFrom(s, 0)
  }

  /**
   * The cursor. `position` is the index of the character under examination,
   * `readPosition` the index of the next one to read, and `ch` the character
   * at `position`, or the NUL sentinel past the end.
   */
  class Lexer {
    const input: string
    var position: nat
    var readPosition: nat
    var ch: char

    /** The cursor invariant that every advance establishes. */
    ghost predicate Valid()
      reads this
    {
      IsAscii(input) && readPosition == position + 1 && ch == CharAt(input, position)
    }

    /** The tokens that the remaining requests will produce. */
    ghost function Remaining(): seq<Token>
      reads this
    {
      TokenizeFrom(input, position)
    }

    /** A lexer positioned on the first character of `input`. */
    constructor (input: string)
      requires IsAscii(input)
      ensures Valid() && this.input == input
      ensures position == 0 && readPosition == 1 && ch == CharAt(input, 0)
      ensures Remaining() == Tokenize(input)
    {
      this.input := input;
      position := 0;
      readPosition := 0;
      ch := NUL;
      new;
      ReadChar();
    }

    /** The only advancing step: move to `readPosition` and load the character there, or the sentinel. */
    method ReadChar()
      requires IsAscii(input)
      modifies this
      ensures position == old(readPosition) && readPosition == position + 1
      ensures ch == CharAt(input, position)
      ensures Valid()
    {
      if readPosition >= |input| {
        ch := NUL;
      } else {
        ch := input[readPosition];
      }
      position := readPosition;
      readPosition := readPosition + 1;
    }

    /** Returns the current character as a one-character string and advances past it. */
    method ConsumeChar() returns (lit: string)
      requires Valid()
      modifies this
      ensures Valid()
      ensures lit == [old(ch)] && position == old(position) + 1
    {
      var c := ch;
      ReadChar();
      lit := [c];
    }

    /** Advances over the maximal run of identifier characters and returns it. */
    method ReadIdent() returns (lit: string)
      requires Valid() && position <= |input|
      modifies this
      ensures Valid()
      ensures position == RunEnd(input, old(position), Letter)
      ensures lit == input[old(position)..position]
    {
      var start := position;
      while IsLetter(ch)
        invariant Valid() && start <= position <= |input|
        invariant RunEnd(input, start, Letter) == RunEnd(input, position, Letter)
        decreases |input| - position
      {
        ReadChar();
      }
      lit := input[start..position];
    }

    /** Advances over the maximal run of ASCII digits and returns it. */
    method ReadNumber() returns (lit: string)
      requires Valid() && position <= |input|
      modifies this
      ensures Valid()
      ensures position == RunEnd(input, old(position), Digit)
      ensures lit == input[old(position)..position]
    {
      var start := position;
      while IsDigit(ch)
        invariant Valid() && start <= position <= |input|
        invariant RunEnd(input, start, Digit) == RunEnd(input, position, Digit)
        decreases |input| - position
      {
        ReadChar();
      }
      lit := input[start..position];
    }

    /** Advances over the maximal run of whitespace. */
    method SkipWhitespace()
      requires Valid()
      modifies this
      ensures Valid()
      ensures position == RunEnd(input, old(position), Whitespace)
    {
      ghost var start := position;
      while IsWhitespace(ch)
        invariant Valid() && start <= position
        invariant RunEnd(input, start, Whitespace) == RunEnd(input, position, Whitespace)
        decreases |input| - position
      {
        ReadChar();
      }
    }

    /** `Iterator::next`: one request, proved to be `Step` and to consume the head of `Remaining()`. */
    method Next() returns (t: Option<Token>)
      requires Valid()
      modifies this
      ensures Valid()
      ensures var sc := Step(input, old(position));
        match sc
        case Done(at) => t == None && position == at
        case Emit(tok, _, next) => t == Some(tok) && position == next
      ensures t == None <==> old(Remaining()) == []
      ensures t.Some? ==> old(position) < position && old(Remaining()) == [t.value] + Remaining()
      ensures t == None ==> ch == NUL && Remaining() == []
      ensures old(ch) == NUL ==> t == None && position == old(position)
    {
      SkipWhitespace();
      if ch == NUL {
        return None;
      }
      var tok: Token;
      match SymbolKind(ch) {
        case Some(k) =>
          var lit := ConsumeChar();
          tok := NewToken(k, lit);
        case None =>
          if IsLetter(ch) {
            var lit := ReadIdent();
            tok := NewToken(Ident, lit);
          } else if IsDigit(ch) {
            var lit := ReadNumber();
            tok := NewToken(Literal(Int), lit);
          } else {
            var lit := ConsumeChar();
            tok := NewToken(Unknown, lit);
          }
      }
      t := Some(tok);
    }
  }

  /** A consumer that pulls tokens from a fresh lexer until exhaustion: it collects exactly `Tokenize(input)`. */
  method Collect(input: string) returns (tokens: seq<Token>)
    requires IsAscii(input)
    ensures tokens == Tokenize(input)
  {
    var lexer := new Lexer(input);
    tokens := [];
    while true
      invariant lexer.Valid() && lexer.input == input
      invariant tokens + lexer.Remaining() == Tokenize(input)
      decreases |lexer.Remaining()|
    {
      var t := lexer.Next();
      if t.None? {
        return;
      }
      tokens := tokens + [t.value];
    }
  }

}
