/**
 * The source's own unit tests, restated as theorems about `Tokenize`: for
 * each test program, the complete token stream it lexes to.
 *
 * A test program is proved line by line. `LexesAs(s, ts)` says that `s`
 * lexes to exactly `ts`; each piece of a line (a word, a number, a symbol,
 * a blank) extends such a fact by one step, using the composition lemmas
 * of `LexerProperties`, and each line lemma chains those steps.
 */
module LexerScenarios {
  import opened Options
  import opened Tokens
  import opened Lexing
  import opened LexerProperties

  /**
   * `s` lexes to exactly `ts`, that is `Tokenize(s) == ts`. It is stated
   * through a guarded quantifier so that the verifier only evaluates the
   * lexer on `s` where a proof asks for it (by mentioning `TokenizeFrom(s, 0)`).
   */
  ghost predicate LexesAs(s: string, ts: seq<Token>)
  {
    forall n: nat :: n == 0 ==> TokenizeFrom(s, n) == ts
  }

  /** The empty input lexes to the empty stream. */
  lemma LexesNothing()
    ensures LexesAs([], [])
  {
    assert Step([], 0) == Done(0);
  }

  /** A maximal run of letters in front of a stream adds one identifier token. */
  lemma LexWord(w: string, r: string, ts: seq<Token>)
    requires |w| > 0 && forall k :: 0 <= k < |w| ==> IsLetter(w[k])
    requires r == [] || !IsLetter(r[0])
    requires LexesAs(r, ts)
    ensures LexesAs(w + r, [Token(Ident, w)] + ts)
  {
    WordIsOneIdent(w, r);
    assert TokenizeFrom(r, 0) == ts;
  }

  /** A maximal run of digits in front of a stream adds one integer token. */
  lemma LexInt(w: string, r: string, ts: seq<Token>)
    requires |w| > 0 && forall k :: 0 <= k < |w| ==> IsDigit(w[k])
    requires r == [] || !IsDigit(r[0])
    requires LexesAs(r, ts)
    ensures LexesAs(w + r, [Token(Literal(Int), w)] + ts)
  {
    DigitsAreOneInt(w, r);
    assert TokenizeFrom(r, 0) == ts;
  }

  /** Whitespace in front of a stream adds nothing. */
  lemma LexBlank(w: string, r: string, ts: seq<Token>)
    requires forall k :: 0 <= k < |w| ==> IsWhitespace(w[k])
    requires LexesAs(r, ts)
    ensures LexesAs(w + r, ts)
  {
    SkipsBlank(w, r);
    assert TokenizeFrom(r, 0) == ts;
  }

  /** A symbol character in front of a stream adds its one-character token. */
  lemma LexSym(c: char, k: TokenKind, r: string, ts: seq<Token>)
    requires Symbol(k) == Some(c)
    requires LexesAs(r, ts)
    ensures LexesAs([c] + r, [Token(k, [c])] + ts)
  {
    SymbolTableAgrees(c, k);
    SymbolToken(c, k, r);
    assert TokenizeFrom(r, 0) == ts;
  }

  /** The head of a declaration, `let <name> =`, indented as in the tests, adds three tokens. */
  lemma LexLetEq(name: string, rest: string, ts: seq<Token>)
    requires |name| > 0 && forall k :: 0 <= k < |name| ==> IsLetter(name[k])
    requires LexesAs(rest, ts)
    ensures LexesAs("            let " + name + " =" + rest, [Token(Ident, "let"), Token(Ident, name), Token(Eq, "=")] + ts)
  {
    var r3, t3 := ['='] + rest, [Token(Eq, "=")] + ts;
    LexSym('=', Eq, rest, ts);
    var r2 := " " + r3;
    LexBlank(" ", r3, t3);
    var r1, t1 := name + r2, [Token(Ident, name)] + t3;
    LexWord(name, r2, t3);
    LexBlank(" ", r1, t1);
    var r0, t0 := "let" + (" " + r1), [Token(Ident, "let")] + t1;
    LexWord("let", " " + r1, t1);
    LexBlank("            ", r0, t0);
    assert t0 == [Token(Ident, "let"), Token(Ident, name), Token(Eq, "=")] + ts;
    LetEqLine(name, rest);
  }

  /** The text of a declaration head, as the pieces `LexLetEq` lexes. */
  lemma LetEqLine(name: string, rest: string)
    ensures "            let " + name + " =" + rest == "            " + ("let" + (" " + (name + (" " + (['='] + rest)))))
  {
  }

  /** A declaration of an integer, `let <name> = <digits>;` on its own line, adds five tokens. */
  lemma LexLetInt(name: string, value: string, rest: string, ts: seq<Token>)
    requires |name| > 0 && forall k :: 0 <= k < |name| ==> IsLetter(name[k])
    requires |value| > 0 && forall k :: 0 <= k < |value| ==> IsDigit(value[k])
    requires LexesAs(rest, ts)
    ensures LexesAs("            let " + name + " = " + value + ";\n" + rest,
      [Token(Ident, "let"), Token(Ident, name), Token(Eq, "="), Token(Literal(Int), value), Token(Semi, ";")] + ts)
  {
    var r2 := [';'] + ("\n" + rest);
    LexBlank("\n", rest, ts);
    LexSym(';', Semi, "\n" + rest, ts);
    var r1 := " " + (value + r2);
    LexInt(value, r2, [Token(Semi, ";")] + ts);
    LexBlank(" ", value + r2, [Token(Literal(Int), value), Token(Semi, ";")] + ts);
    LexLetEq(name, r1, [Token(Literal(Int), value), Token(Semi, ";")] + ts);
    LetIntLine(name, value, rest);
    assert [Token(Ident, "let"), Token(Ident, name), Token(Eq, "=")] + ([Token(Literal(Int), value), Token(Semi, ";")] + ts)
      == [Token(Ident, "let"), Token(Ident, name), Token(Eq, "="), Token(Literal(Int), value), Token(Semi, ";")] + ts;
  }

  /** The text of an integer declaration, as the pieces `LexLetInt` lexes. */
  lemma LetIntLine(name: string, value: string, rest: string)
    ensures "            let " + name + " = " + value + ";\n" + rest == "            let " + name + " =" + (" " + (value + ([';'] + ("\n" + rest))))
  {
  }

  /** The head of a call with two arguments, ` <name>(<arg>, `, adds four tokens. */
  lemma LexCallHead(name: string, arg: string, rest: string, ts: seq<Token>)
    requires |name| > 0 && forall k :: 0 <= k < |name| ==> IsLetter(name[k])
    requires |arg| > 0 && forall k :: 0 <= k < |arg| ==> IsLetter(arg[k])
    requires LexesAs(rest, ts)
    ensures LexesAs(" " + name + "(" + arg + ", " + rest,
      [Token(Ident, name), Token(OpenParen, "("), Token(Ident, arg), Token(Comma, ",")] + ts)
  {
    var r3 := [','] + (" " + rest);
    LexBlank(" ", rest, ts);
    LexSym(',', Comma, " " + rest, ts);
    var t3 := [Token(Comma, ",")] + ts;
    var r2, t2 := arg + r3, [Token(Ident, arg)] + t3;
    LexWord(arg, r3, t3);
    var r1, t1 := ['('] + r2, [Token(OpenParen, "(")] + t2;
    LexSym('(', OpenParen, r2, t2);
    var t0 := [Token(Ident, name)] + t1;
    LexWord(name, r1, t1);
    LexBlank(" ", name + r1, t0);
    assert t0 == [Token(Ident, name), Token(OpenParen, "("), Token(Ident, arg), Token(Comma, ",")] + ts;
    CallHeadLine(name, arg, rest);
  }

  /** The text of a call head, as the pieces `LexCallHead` lexes. */
  lemma CallHeadLine(name: string, arg: string, rest: string)
    ensures " " + name + "(" + arg + ", " + rest == " " + (name + (['('] + (arg + ([','] + (" " + rest)))))
  {
  }

  /** A declaration whose value starts with a call, `let <name> = <callee>(<arg>, `, adds seven tokens. */
  lemma LexLetCall(name: string, callee: string, arg: string, rest: string, ts: seq<Token>)
    requires |name| > 0 && forall k :: 0 <= k < |name| ==> IsLetter(name[k])
    requires |callee| > 0 && forall k :: 0 <= k < |callee| ==> IsLetter(callee[k])
    requires |arg| > 0 && forall k :: 0 <= k < |arg| ==> IsLetter(arg[k])
    requires LexesAs(rest, ts)
    ensures LexesAs("            let " + name + " = " + callee + "(" + arg + ", " + rest,
      [Token(Ident, "let"), Token(Ident, name), Token(Eq, "="), Token(Ident, callee), Token(OpenParen, "("), Token(Ident, arg), Token(Comma, ",")] + ts)
  {
    var t1 := [Token(Ident, callee), Token(OpenParen, "("), Token(Ident, arg), Token(Comma, ",")] + ts;
    LexCallHead(callee, arg, rest, ts);
    LexLetEq(name, " " + callee + "(" + arg + ", " + rest, t1);
    assert [Token(Ident, "let"), Token(Ident, name), Token(Eq, "=")] + t1
      == [Token(Ident, "let"), Token(Ident, name), Token(Eq, "="), Token(Ident, callee), Token(OpenParen, "("), Token(Ident, arg), Token(Comma, ",")] + ts;
    LetCallLine(name, callee, arg, rest);
  }

  /** The text of a declaration whose value starts with a call, as the pieces `LexLetCall` lexes. */
  lemma LetCallLine(name: string, callee: string, arg: string, rest: string)
    ensures "            let " + name + " = " + callee + "(" + arg + ", " + rest
      == "            let " + name + " =" + (" " + callee + "(" + arg + ", " + rest)
  {
  }

  /** Keywords are not special: each lexes to one identifier. */
  lemma KeywordsAreIdents(w: string)
    requires w in ["let", "fn", "return", "while"]
    ensures Tokenize(w) == [Token(Ident, w)]
  {
    LexesNothing();
    LexWord(w, [], []);
    assert w + [] == w;
    assert TokenizeFrom(w + [], 0) == [Token(Ident, w)] + [];
  }

  /** There are no decimal literals: `5.0` is an integer, a dot and an integer. */
  lemma DigitDotSplit()
    ensures Tokenize("5.0") == [Token(Literal(Int), "5"), Token(Dot, "."), Token(Literal(Int), "0")]
  {
    LexesNothing();
    var r2 := "0" + [];
    LexInt("0", [], []);
    var r1 := ['.'] + r2;
    LexSym('.', Dot, r2, [Token(Literal(Int), "0")]);
    var r0 := "5" + r1;
    LexInt("5", r1, [Token(Dot, "."), Token(Literal(Int), "0")]);
    assert "5.0" == r0;
    assert TokenizeFrom(r0, 0) == [Token(Literal(Int), "5"), Token(Dot, "."), Token(Literal(Int), "0")];
  }

  /** The one-character token test: each of the 27 symbols, in table order, becomes a token of its own kind. */
  lemma SingleCharTokensTest()
    ensures Tokenize(
      "\n" + (
      "            ;,.(){}[]@#" + (
      "~!=+-*/<>&|^" + (
      ":?$%\n" +
      "        ")))) ==
      [Token(Semi, ";"), Token(Comma, ","), Token(Dot, "."), Token(OpenParen, "("), Token(CloseParen, ")"), Token(OpenBrace, "{"), Token(CloseBrace, "}"), Token(OpenBracket, "["), Token(CloseBracket, "]"), Token(At, "@"), Token(Pound, "#")] + (
      [Token(Tilde, "~"), Token(Bang, "!"), Token(Eq, "="), Token(Plus, "+"), Token(Minus, "-"), Token(Star, "*"), Token(Slash, "/"), Token(Lt, "<"), Token(Gt, ">"), Token(And, "&"), Token(Or, "|"), Token(Caret, "^")] +
      [Token(Colon, ":"), Token(Question, "?"), Token(Dollar, "$"), Token(Percent, "%")])
  {
    LexesNothing();
    LexBlank("        ", [], []);
    assert "        " + [] == "        ";
    var r4 := "        ";
    var r3 := ":?$%\n" + r4;
    SingleCharTokensTestLine1E(r4, []);
    assert [Token(Colon, ":"), Token(Question, "?"), Token(Dollar, "$"), Token(Percent, "%")] + [] == [Token(Colon, ":"), Token(Question, "?"), Token(Dollar, "$"), Token(Percent, "%")];
    var t3 := [Token(Colon, ":"), Token(Question, "?"), Token(Dollar, "$"), Token(Percent, "%")];
    var r2 := "~!=+-*/<>&|^" + r3;
    SingleCharTokensTestLine1CD(r3, t3);
    var t2 := [Token(Tilde, "~"), Token(Bang, "!"), Token(Eq, "="), Token(Plus, "+"), Token(Minus, "-"), Token(Star, "*"), Token(Slash, "/"), Token(Lt, "<"), Token(Gt, ">"), Token(And, "&"), Token(Or, "|"), Token(Caret, "^")] + t3;
    var r1 := "            ;,.(){}[]@#" + r2;
    SingleCharTokensTestLine1AB(r2, t2);
    var t1 := [Token(Semi, ";"), Token(Comma, ","), Token(Dot, "."), Token(OpenParen, "("), Token(CloseParen, ")"), Token(OpenBrace, "{"), Token(CloseBrace, "}"), Token(OpenBracket, "["), Token(CloseBracket, "]"), Token(At, "@"), Token(Pound, "#")] + t2;
    var r0 := "\n" + r1;
    LexBlank("\n", r1, t1);
    assert TokenizeFrom(r0, 0) == t1;
  }

  /** Line 1 of the one-character token test input, part 1 of 5. */
  lemma SingleCharTokensTestLine1A(rest: string, ts: seq<Token>)
    requires LexesAs(rest, ts)
    ensures LexesAs("            ;,.()" + rest, [
        Token(Semi, ";"),
        Token(Comma, ","),
        Token(Dot, "."),
        Token(OpenParen, "("),
        Token(CloseParen, ")")
      ] + ts)
  {
    var r5 := [')'] + rest;
    var t5 := [Token(CloseParen, ")")] + ts;
    LexSym(')', CloseParen, rest, ts);
    var r4 := ['('] + r5;
    var t4 := [Token(OpenParen, "(")] + t5;
    LexSym('(', OpenParen, r5, t5);
    var r3 := ['.'] + r4;
    var t3 := [Token(Dot, ".")] + t4;
    LexSym('.', Dot, r4, t4);
    var r2 := [','] + r3;
    var t2 := [Token(Comma, ",")] + t3;
    LexSym(',', Comma, r3, t3);
    var r1 := [';'] + r2;
    var t1 := [Token(Semi, ";")] + t2;
    LexSym(';', Semi, r2, t2);
    var r0 := "            " + r1;
    var t0 := t1;
    LexBlank("            ", r1, t1);
    assert "            ;,.()" + rest == r0;
    assert [Token(Semi, ";"), Token(Comma, ","), Token(Dot, "."), Token(OpenParen, "("), Token(CloseParen, ")")] + ts == t0;
  }

  /** Line 1 of the one-character token test input, part 2 of 5. */
  lemma SingleCharTokensTestLine1B(rest: string, ts: seq<Token>)
    requires LexesAs(rest, ts)
    ensures LexesAs("{}[]@#" + rest, [
        Token(OpenBrace, "{"),
        Token(CloseBrace, "}"),
        Token(OpenBracket, "["),
        Token(CloseBracket, "]"),
        Token(At, "@"),
        Token(Pound, "#")
      ] + ts)
  {
    var r5 := ['#'] + rest;
    var t5 := [Token(Pound, "#")] + ts;
    LexSym('#', Pound, rest, ts);
    var r4 := ['@'] + r5;
    var t4 := [Token(At, "@")] + t5;
    LexSym('@', At, r5, t5);
    var r3 := [']'] + r4;
    var t3 := [Token(CloseBracket, "]")] + t4;
    LexSym(']', CloseBracket, r4, t4);
    var r2 := ['['] + r3;
    var t2 := [Token(OpenBracket, "[")] + t3;
    LexSym('[', OpenBracket, r3, t3);
    var r1 := ['}'] + r2;
    var t1 := [Token(CloseBrace, "}")] + t2;
    LexSym('}', CloseBrace, r2, t2);
    var r0 := ['{'] + r1;
    var t0 := [Token(OpenBrace, "{")] + t1;
    LexSym('{', OpenBrace, r1, t1);
    assert "{}[]@#" + rest == r0;
    assert [Token(OpenBrace, "{"), Token(CloseBrace, "}"), Token(OpenBracket, "["), Token(CloseBracket, "]"), Token(At, "@"), Token(Pound, "#")] + ts == t0;
  }

  /** Line 1 of the one-character token test input, part 3 of 5. */
  lemma SingleCharTokensTestLine1C(rest: string, ts: seq<Token>)
    requires LexesAs(rest, ts)
    ensures LexesAs("~!=+-*" + rest, [
        Token(Tilde, "~"),
        Token(Bang, "!"),
        Token(Eq, "="),
        Token(Plus, "+"),
        Token(Minus, "-"),
        Token(Star, "*")
      ] + ts)
  {
    var r5 := ['*'] + rest;
    var t5 := [Token(Star, "*")] + ts;
    LexSym('*', Star, rest, ts);
    var r4 := ['-'] + r5;
    var t4 := [Token(Minus, "-")] + t5;
    LexSym('-', Minus, r5, t5);
    var r3 := ['+'] + r4;
    var t3 := [Token(Plus, "+")] + t4;
    LexSym('+', Plus, r4, t4);
    var r2 := ['='] + r3;
    var t2 := [Token(Eq, "=")] + t3;
    LexSym('=', Eq, r3, t3);
    var r1 := ['!'] + r2;
    var t1 := [Token(Bang, "!")] + t2;
    LexSym('!', Bang, r2, t2);
    var r0 := ['~'] + r1;
    var t0 := [Token(Tilde, "~")] + t1;
    LexSym('~', Tilde, r1, t1);
    assert "~!=+-*" + rest == r0;
    assert [Token(Tilde, "~"), Token(Bang, "!"), Token(Eq, "="), Token(Plus, "+"), Token(Minus, "-"), Token(Star, "*")] + ts == t0;
  }

  /** Line 1 of the one-character token test input, part 4 of 5. */
  lemma SingleCharTokensTestLine1D(rest: string, ts: seq<Token>)
    requires LexesAs(rest, ts)
    ensures LexesAs("/<>&|^" + rest, [
        Token(Slash, "/"),
        Token(Lt, "<"),
        Token(Gt, ">"),
        Token(And, "&"),
        Token(Or, "|"),
        Token(Caret, "^")
      ] + ts)
  {
    var r5 := ['^'] + rest;
    var t5 := [Token(Caret, "^")] + ts;
    LexSym('^', Caret, rest, ts);
    var r4 := ['|'] + r5;
    var t4 := [Token(Or, "|")] + t5;
    LexSym('|', Or, r5, t5);
    var r3 := ['&'] + r4;
    var t3 := [Token(And, "&")] + t4;
    LexSym('&', And, r4, t4);
    var r2 := ['>'] + r3;
    var t2 := [Token(Gt, ">")] + t3;
    LexSym('>', Gt, r3, t3);
    var r1 := ['<'] + r2;
    var t1 := [Token(Lt, "<")] + t2;
    LexSym('<', Lt, r2, t2);
    var r0 := ['/'] + r1;
    var t0 := [Token(Slash, "/")] + t1;
    LexSym('/', Slash, r1, t1);
    assert "/<>&|^" + rest == r0;
    assert [Token(Slash, "/"), Token(Lt, "<"), Token(Gt, ">"), Token(And, "&"), Token(Or, "|"), Token(Caret, "^")] + ts == t0;
  }

  /** Line 1 of the one-character token test input, part 5 of 5. */
  lemma SingleCharTokensTestLine1E(rest: string, ts: seq<Token>)
    requires LexesAs(rest, ts)
    ensures LexesAs(":?$%\n" + rest, [Token(Colon, ":"), Token(Question, "?"), Token(Dollar, "$"), Token(Percent, "%")] + ts)
  {
    var r4 := "\n" + rest;
    var t4 := ts;
    LexBlank("\n", rest, ts);
    var r3 := ['%'] + r4;
    var t3 := [Token(Percent, "%")] + t4;
    LexSym('%', Percent, r4, t4);
    var r2 := ['$'] + r3;
    var t2 := [Token(Dollar, "$")] + t3;
    LexSym('$', Dollar, r3, t3);
    var r1 := ['?'] + r2;
    var t1 := [Token(Question, "?")] + t2;
    LexSym('?', Question, r2, t2);
    var r0 := [':'] + r1;
    var t0 := [Token(Colon, ":")] + t1;
    LexSym(':', Colon, r1, t1);
    assert ":?$%\n" + rest == r0;
    assert [Token(Colon, ":"), Token(Question, "?"), Token(Dollar, "$"), Token(Percent, "%")] + ts == t0;
  }

  /** Line 1 of the one-character token test input, parts 1 and 2 of 5. */
  lemma SingleCharTokensTestLine1AB(rest: string, ts: seq<Token>)
    requires LexesAs(rest, ts)
    ensures LexesAs("            ;,.(){}[]@#" + rest, [
        Token(Semi, ";"),
        Token(Comma, ","),
        Token(Dot, "."),
        Token(OpenParen, "("),
        Token(CloseParen, ")"),
        Token(OpenBrace, "{"),
        Token(CloseBrace, "}"),
        Token(OpenBracket, "["),
        Token(CloseBracket, "]"),
        Token(At, "@"),
        Token(Pound, "#")
      ] + ts)
  {
    var r1 := "{}[]@#" + rest;
    var t1 := [Token(OpenBrace, "{"), Token(CloseBrace, "}"), Token(OpenBracket, "["), Token(CloseBracket, "]"), Token(At, "@"), Token(Pound, "#")] + ts;
    SingleCharTokensTestLine1B(rest, ts);
    var r0 := "            ;,.()" + r1;
    var t0 := [Token(Semi, ";"), Token(Comma, ","), Token(Dot, "."), Token(OpenParen, "("), Token(CloseParen, ")")] + t1;
    SingleCharTokensTestLine1A(r1, t1);
    assert "            ;,.(){}[]@#" + rest == r0;
    assert [Token(Semi, ";"), Token(Comma, ","), Token(Dot, "."), Token(OpenParen, "("), Token(CloseParen, ")"), Token(OpenBrace, "{"), Token(CloseBrace, "}"), Token(OpenBracket, "["), Token(CloseBracket, "]"), Token(At, "@"), Token(Pound, "#")] + ts == t0;
  }

  /** Line 1 of the one-character token test input, parts 3 and 4 of 5. */
  lemma SingleCharTokensTestLine1CD(rest: string, ts: seq<Token>)
    requires LexesAs(rest, ts)
    ensures LexesAs("~!=+-*/<>&|^" + rest, [
        Token(Tilde, "~"),
        Token(Bang, "!"),
        Token(Eq, "="),
        Token(Plus, "+"),
        Token(Minus, "-"),
        Token(Star, "*"),
        Token(Slash, "/"),
        Token(Lt, "<"),
        Token(Gt, ">"),
        Token(And, "&"),
        Token(Or, "|"),
        Token(Caret, "^")
      ] + ts)
  {
    var r1 := "/<>&|^" + rest;
    var t1 := [Token(Slash, "/"), Token(Lt, "<"), Token(Gt, ">"), Token(And, "&"), Token(Or, "|"), Token(Caret, "^")] + ts;
    SingleCharTokensTestLine1D(rest, ts);
    var r0 := "~!=+-*" + r1;
    var t0 := [Token(Tilde, "~"), Token(Bang, "!"), Token(Eq, "="), Token(Plus, "+"), Token(Minus, "-"), Token(Star, "*")] + t1;
    SingleCharTokensTestLine1C(r1, t1);
    assert "~!=+-*/<>&|^" + rest == r0;
    assert [Token(Tilde, "~"), Token(Bang, "!"), Token(Eq, "="), Token(Plus, "+"), Token(Minus, "-"), Token(Star, "*"), Token(Slash, "/"), Token(Lt, "<"), Token(Gt, ">"), Token(And, "&"), Token(Or, "|"), Token(Caret, "^")] + ts == t0;
  }

  /** The first statement test: a declaration of an integer. */
  lemma NextTokenTest()
    ensures Tokenize(
      "\n" + (
      "            let five = 5;\n" +
      "        ")) ==
      [
        Token(Ident, "let"),
        Token(Ident, "five"),
        Token(Eq, "="),
        Token(Literal(Int), "5"),
        Token(Semi, ";")
      ]
  {
    LexesNothing();
    LexBlank("        ", [], []);
    assert "        " + [] == "        ";
    var r2 := "        ";
    var r1 := "            let five = 5;\n" + r2;
    LexLetInt("five", "5", r2, []);
    assert "            let " + "five" + " = " + "5" + ";\n" == "            let five = 5;\n";
    assert [Token(Ident, "let"), Token(Ident, "five"), Token(Eq, "="), Token(Literal(Int), "5"), Token(Semi, ";")] + [] == [Token(Ident, "let"), Token(Ident, "five"), Token(Eq, "="), Token(Literal(Int), "5"), Token(Semi, ";")];
    var t1 := [Token(Ident, "let"), Token(Ident, "five"), Token(Eq, "="), Token(Literal(Int), "5"), Token(Semi, ";")];
    var r0 := "\n" + r1;
    LexBlank("\n", r1, t1);
    assert TokenizeFrom(r0, 0) == t1;
  }

  /** The function declaration test: keywords lex as identifiers, and `5.0` as an integer, a dot and an integer. The input and the expected stream are grouped by source line. */
  lemma FnDeclarationTest()
    ensures Tokenize(
      "\n" + (
      "            let five = 5.0;\n" + (
      "            let ten = 10;\n" + (
      "            let add = fn(x, " + (
      "y) {\n" + (
      "                return x + y;\n" + (
      "            };\n" + (
      "            let result = add(five, " + (
      "ten);\n" +
      "        "))))))))) ==
      [Token(Ident, "let"), Token(Ident, "five"), Token(Eq, "="), Token(Literal(Int), "5"), Token(Dot, "."), Token(Literal(Int), "0"), Token(Semi, ";")] + (
      [Token(Ident, "let"), Token(Ident, "ten"), Token(Eq, "="), Token(Literal(Int), "10"), Token(Semi, ";")] + (
      [Token(Ident, "let"), Token(Ident, "add"), Token(Eq, "="), Token(Ident, "fn"), Token(OpenParen, "("), Token(Ident, "x"), Token(Comma, ",")] + (
      [Token(Ident, "y"), Token(CloseParen, ")"), Token(OpenBrace, "{")] + (
      [Token(Ident, "return"), Token(Ident, "x"), Token(Plus, "+"), Token(Ident, "y"), Token(Semi, ";")] + (
      [Token(CloseBrace, "}"), Token(Semi, ";")] + (
      [Token(Ident, "let"), Token(Ident, "result"), Token(Eq, "="), Token(Ident, "add"), Token(OpenParen, "("), Token(Ident, "five"), Token(Comma, ",")] +
      [Token(Ident, "ten"), Token(CloseParen, ")"), Token(Semi, ";")]))))))
  {
    LexesNothing();
    LexBlank("        ", [], []);
    assert "        " + [] == "        ";
    var r9 := "        ";
    var r8 := "ten);\n" + r9;
    FnDeclarationTestLine6C(r9, []);
    assert [Token(Ident, "ten"), Token(CloseParen, ")"), Token(Semi, ";")] + [] == [Token(Ident, "ten"), Token(CloseParen, ")"), Token(Semi, ";")];
    var t8 := [Token(Ident, "ten"), Token(CloseParen, ")"), Token(Semi, ";")];
    var r7 := "            let result = add(five, " + r8;
    LexLetCall("result", "add", "five", r8, t8);
    assert "            let " + "result" + " = " + "add" + "(" + "five" + ", " == "            let result = add(five, ";
    var t7 := [Token(Ident, "let"), Token(Ident, "result"), Token(Eq, "="), Token(Ident, "add"), Token(OpenParen, "("), Token(Ident, "five"), Token(Comma, ",")] + t8;
    var r6 := "            };\n" + r7;
    FnDeclarationTestLine5(r7, t7);
    var t6 := [Token(CloseBrace, "}"), Token(Semi, ";")] + t7;
    var r5 := "                return x + y;\n" + r6;
    FnDeclarationTestLine4(r6, t6);
    var t5 := [Token(Ident, "return"), Token(Ident, "x"), Token(Plus, "+"), Token(Ident, "y"), Token(Semi, ";")] + t6;
    var r4 := "y) {\n" + r5;
    FnDeclarationTestLine3C(r5, t5);
    var t4 := [Token(Ident, "y"), Token(CloseParen, ")"), Token(OpenBrace, "{")] + t5;
    var r3 := "            let add = fn(x, " + r4;
    LexLetCall("add", "fn", "x", r4, t4);
    assert "            let " + "add" + " = " + "fn" + "(" + "x" + ", " == "            let add = fn(x, ";
    var t3 := [Token(Ident, "let"), Token(Ident, "add"), Token(Eq, "="), Token(Ident, "fn"), Token(OpenParen, "("), Token(Ident, "x"), Token(Comma, ",")] + t4;
    var r2 := "            let ten = 10;\n" + r3;
    LexLetInt("ten", "10", r3, t3);
    assert "            let " + "ten" + " = " + "10" + ";\n" == "            let ten = 10;\n";
    var t2 := [Token(Ident, "let"), Token(Ident, "ten"), Token(Eq, "="), Token(Literal(Int), "10"), Token(Semi, ";")] + t3;
    var r1 := "            let five = 5.0;\n" + r2;
    FnDeclarationTestLine1(r2, t2);
    var t1 := [Token(Ident, "let"), Token(Ident, "five"), Token(Eq, "="), Token(Literal(Int), "5"), Token(Dot, "."), Token(Literal(Int), "0"), Token(Semi, ";")] + t2;
    var r0 := "\n" + r1;
    LexBlank("\n", r1, t1);
    assert TokenizeFrom(r0, 0) == t1;
  }

  /** Line 1 of the function declaration test input, part 2 of 2. */
  lemma FnDeclarationTestLine1B(rest: string, ts: seq<Token>)
    requires LexesAs(rest, ts)
    ensures LexesAs(" 5.0;\n" + rest, [Token(Literal(Int), "5"), Token(Dot, "."), Token(Literal(Int), "0"), Token(Semi, ";")] + ts)
  {
    var r5 := "\n" + rest;
    var t5 := ts;
    LexBlank("\n", rest, ts);
    var r4 := [';'] + r5;
    var t4 := [Token(Semi, ";")] + t5;
    LexSym(';', Semi, r5, t5);
    var r3 := "0" + r4;
    var t3 := [Token(Literal(Int), "0")] + t4;
    LexInt("0", r4, t4);
    var r2 := ['.'] + r3;
    var t2 := [Token(Dot, ".")] + t3;
    LexSym('.', Dot, r3, t3);
    var r1 := "5" + r2;
    var t1 := [Token(Literal(Int), "5")] + t2;
    LexInt("5", r2, t2);
    var r0 := " " + r1;
    var t0 := t1;
    LexBlank(" ", r1, t1);
    assert " 5.0;\n" + rest == r0;
    assert [Token(Literal(Int), "5"), Token(Dot, "."), Token(Literal(Int), "0"), Token(Semi, ";")] + ts == t0;
  }

  /** Line 1 of the function declaration test input, proved in 2 parts. */
  lemma FnDeclarationTestLine1(rest: string, ts: seq<Token>)
    requires LexesAs(rest, ts)
    ensures LexesAs("            let five = 5.0;\n" + rest, [
        Token(Ident, "let"),
        Token(Ident, "five"),
        Token(Eq, "="),
        Token(Literal(Int), "5"),
        Token(Dot, "."),
        Token(Literal(Int), "0"),
        Token(Semi, ";")
      ] + ts)
  {
    var r1 := " 5.0;\n" + rest;
    var t1 := [Token(Literal(Int), "5"), Token(Dot, "."), Token(Literal(Int), "0"), Token(Semi, ";")] + ts;
    FnDeclarationTestLine1B(rest, ts);
    var r0 := "            let five =" + r1;
    var t0 := [Token(Ident, "let"), Token(Ident, "five"), Token(Eq, "=")] + t1;
    LexLetEq("five", r1, t1);
    assert "            let " + "five" + " =" == "            let five =";
    assert "            let five = 5.0;\n" + rest == r0;
    assert [Token(Ident, "let"), Token(Ident, "five"), Token(Eq, "="), Token(Literal(Int), "5"), Token(Dot, "."), Token(Literal(Int), "0"), Token(Semi, ";")] + ts == t0;
  }

  /** Line 3 of the function declaration test input, part 3 of 3. */
  lemma FnDeclarationTestLine3C(rest: string, ts: seq<Token>)
    requires LexesAs(rest, ts)
    ensures LexesAs("y) {\n" + rest, [Token(Ident, "y"), Token(CloseParen, ")"), Token(OpenBrace, "{")] + ts)
  {
    var r4 := "\n" + rest;
    var t4 := ts;
    LexBlank("\n", rest, ts);
    var r3 := ['{'] + r4;
    var t3 := [Token(OpenBrace, "{")] + t4;
    LexSym('{', OpenBrace, r4, t4);
    var r2 := " " + r3;
    var t2 := t3;
    LexBlank(" ", r3, t3);
    var r1 := [')'] + r2;
    var t1 := [Token(CloseParen, ")")] + t2;
    LexSym(')', CloseParen, r2, t2);
    var r0 := "y" + r1;
    var t0 := [Token(Ident, "y")] + t1;
    LexWord("y", r1, t1);
    assert "y) {\n" + rest == r0;
    assert [Token(Ident, "y"), Token(CloseParen, ")"), Token(OpenBrace, "{")] + ts == t0;
  }

  /** Line 4 of the function declaration test input, part 1 of 2. */
  lemma FnDeclarationTestLine4A(rest: string, ts: seq<Token>)
    requires LexesAs(rest, ts)
    ensures LexesAs("                return x " + rest, [Token(Ident, "return"), Token(Ident, "x")] + ts)
  {
    var r4 := " " + rest;
    var t4 := ts;
    LexBlank(" ", rest, ts);
    var r3 := "x" + r4;
    var t3 := [Token(Ident, "x")] + t4;
    LexWord("x", r4, t4);
    var r2 := " " + r3;
    var t2 := t3;
    LexBlank(" ", r3, t3);
    var r1 := "return" + r2;
    var t1 := [Token(Ident, "return")] + t2;
    LexWord("return", r2, t2);
    var r0 := "                " + r1;
    var t0 := t1;
    LexBlank("                ", r1, t1);
    assert "                return x " + rest == r0;
    assert [Token(Ident, "return"), Token(Ident, "x")] + ts == t0;
  }

  /** Line 4 of the function declaration test input, part 2 of 2. */
  lemma FnDeclarationTestLine4B(rest: string, ts: seq<Token>)
    requires LexesAs(rest, ts)
    ensures LexesAs("+ y;\n" + rest, [Token(Plus, "+"), Token(Ident, "y"), Token(Semi, ";")] + ts)
  {
    var r4 := "\n" + rest;
    var t4 := ts;
    LexBlank("\n", rest, ts);
    var r3 := [';'] + r4;
    var t3 := [Token(Semi, ";")] + t4;
    LexSym(';', Semi, r4, t4);
    var r2 := "y" + r3;
    var t2 := [Token(Ident, "y")] + t3;
    LexWord("y", r3, t3);
    var r1 := " " + r2;
    var t1 := t2;
    LexBlank(" ", r2, t2);
    var r0 := ['+'] + r1;
    var t0 := [Token(Plus, "+")] + t1;
    LexSym('+', Plus, r1, t1);
    assert "+ y;\n" + rest == r0;
    assert [Token(Plus, "+"), Token(Ident, "y"), Token(Semi, ";")] + ts == t0;
  }

  /** Line 4 of the function declaration test input, proved in 2 parts. */
  lemma FnDeclarationTestLine4(rest: string, ts: seq<Token>)
    requires LexesAs(rest, ts)
    ensures LexesAs("                return x + y;\n" + rest, [
        Token(Ident, "return"),
        Token(Ident, "x"),
        Token(Plus, "+"),
        Token(Ident, "y"),
        Token(Semi, ";")
      ] + ts)
  {
    var r1 := "+ y;\n" + rest;
    var t1 := [Token(Plus, "+"), Token(Ident, "y"), Token(Semi, ";")] + ts;
    FnDeclarationTestLine4B(rest, ts);
    var r0 := "                return x " + r1;
    var t0 := [Token(Ident, "return"), Token(Ident, "x")] + t1;
    FnDeclarationTestLine4A(r1, t1);
    assert "                return x + y;\n" + rest == r0;
    assert [Token(Ident, "return"), Token(Ident, "x"), Token(Plus, "+"), Token(Ident, "y"), Token(Semi, ";")] + ts == t0;
  }

  /** Line 5 of the function declaration test input. */
  lemma FnDeclarationTestLine5(rest: string, ts: seq<Token>)
    requires LexesAs(rest, ts)
    ensures LexesAs("            };\n" + rest, [Token(CloseBrace, "}"), Token(Semi, ";")] + ts)
  {
    var r3 := "\n" + rest;
    var t3 := ts;
    LexBlank("\n", rest, ts);
    var r2 := [';'] + r3;
    var t2 := [Token(Semi, ";")] + t3;
    LexSym(';', Semi, r3, t3);
    var r1 := ['}'] + r2;
    var t1 := [Token(CloseBrace, "}")] + t2;
    LexSym('}', CloseBrace, r2, t2);
    var r0 := "            " + r1;
    var t0 := t1;
    LexBlank("            ", r1, t1);
    assert "            };\n" + rest == r0;
    assert [Token(CloseBrace, "}"), Token(Semi, ";")] + ts == t0;
  }

  /** Line 6 of the function declaration test input, part 3 of 3. */
  lemma FnDeclarationTestLine6C(rest: string, ts: seq<Token>)
    requires LexesAs(rest, ts)
    ensures LexesAs("ten);\n" + rest, [Token(Ident, "ten"), Token(CloseParen, ")"), Token(Semi, ";")] + ts)
  {
    var r3 := "\n" + rest;
    var t3 := ts;
    LexBlank("\n", rest, ts);
    var r2 := [';'] + r3;
    var t2 := [Token(Semi, ";")] + t3;
    LexSym(';', Semi, r3, t3);
    var r1 := [')'] + r2;
    var t1 := [Token(CloseParen, ")")] + t2;
    LexSym(')', CloseParen, r2, t2);
    var r0 := "ten" + r1;
    var t0 := [Token(Ident, "ten")] + t1;
    LexWord("ten", r1, t1);
    assert "ten);\n" + rest == r0;
    assert [Token(Ident, "ten"), Token(CloseParen, ")"), Token(Semi, ";")] + ts == t0;
  }

  /** The while-loop test: the token stream of a small program, end to end. The input and the expected stream are grouped by source line. */
  lemma WhileLoopTest()
    ensures Tokenize(
      "\n" + (
      "            let i = 0;\n" + (
      "            while (i < 10) {\n" + (
      "                i = i + 1;\n" + (
      "            }\n" +
      "        "))))) ==
      [Token(Ident, "let"), Token(Ident, "i"), Token(Eq, "="), Token(Literal(Int), "0"), Token(Semi, ";")] + (
      [Token(Ident, "while"), Token(OpenParen, "("), Token(Ident, "i"), Token(Lt, "<"), Token(Literal(Int), "10"), Token(CloseParen, ")"), Token(OpenBrace, "{")] + (
      [Token(Ident, "i"), Token(Eq, "="), Token(Ident, "i"), Token(Plus, "+"), Token(Literal(Int), "1"), Token(Semi, ";")] +
      [Token(CloseBrace, "}")]))
  {
    LexesNothing();
    LexBlank("        ", [], []);
    assert "        " + [] == "        ";
    var r5 := "        ";
    var r4 := "            }\n" + r5;
    WhileLoopTestLine4(r5, []);
    assert [Token(CloseBrace, "}")] + [] == [Token(CloseBrace, "}")];
    var t4 := [Token(CloseBrace, "}")];
    var r3 := "                i = i + 1;\n" + r4;
    WhileLoopTestLine3(r4, t4);
    var t3 := [Token(Ident, "i"), Token(Eq, "="), Token(Ident, "i"), Token(Plus, "+"), Token(Literal(Int), "1"), Token(Semi, ";")] + t4;
    var r2 := "            while (i < 10) {\n" + r3;
    WhileLoopTestLine2(r3, t3);
    var t2 := [Token(Ident, "while"), Token(OpenParen, "("), Token(Ident, "i"), Token(Lt, "<"), Token(Literal(Int), "10"), Token(CloseParen, ")"), Token(OpenBrace, "{")] + t3;
    var r1 := "            let i = 0;\n" + r2;
    LexLetInt("i", "0", r2, t2);
    assert "            let " + "i" + " = " + "0" + ";\n" == "            let i = 0;\n";
    var t1 := [Token(Ident, "let"), Token(Ident, "i"), Token(Eq, "="), Token(Literal(Int), "0"), Token(Semi, ";")] + t2;
    var r0 := "\n" + r1;
    LexBlank("\n", r1, t1);
    assert TokenizeFrom(r0, 0) == t1;
  }

  /** Line 2 of the while-loop test input, part 1 of 2. */
  lemma WhileLoopTestLine2A(rest: string, ts: seq<Token>)
    requires LexesAs(rest, ts)
    ensures LexesAs("            while (i <" + rest, [Token(Ident, "while"), Token(OpenParen, "("), Token(Ident, "i"), Token(Lt, "<")] + ts)
  {
    var r6 := ['<'] + rest;
    var t6 := [Token(Lt, "<")] + ts;
    LexSym('<', Lt, rest, ts);
    var r5 := " " + r6;
    var t5 := t6;
    LexBlank(" ", r6, t6);
    var r4 := "i" + r5;
    var t4 := [Token(Ident, "i")] + t5;
    LexWord("i", r5, t5);
    var r3 := ['('] + r4;
    var t3 := [Token(OpenParen, "(")] + t4;
    LexSym('(', OpenParen, r4, t4);
    var r2 := " " + r3;
    var t2 := t3;
    LexBlank(" ", r3, t3);
    var r1 := "while" + r2;
    var t1 := [Token(Ident, "while")] + t2;
    LexWord("while", r2, t2);
    var r0 := "            " + r1;
    var t0 := t1;
    LexBlank("            ", r1, t1);
    assert "            while (i <" + rest == r0;
    assert [Token(Ident, "while"), Token(OpenParen, "("), Token(Ident, "i"), Token(Lt, "<")] + ts == t0;
  }

  /** Line 2 of the while-loop test input, part 2 of 2. */
  lemma WhileLoopTestLine2B(rest: string, ts: seq<Token>)
    requires LexesAs(rest, ts)
    ensures LexesAs(" 10) {\n" + rest, [Token(Literal(Int), "10"), Token(CloseParen, ")"), Token(OpenBrace, "{")] + ts)
  {
    var r5 := "\n" + rest;
    var t5 := ts;
    LexBlank("\n", rest, ts);
    var r4 := ['{'] + r5;
    var t4 := [Token(OpenBrace, "{")] + t5;
    LexSym('{', OpenBrace, r5, t5);
    var r3 := " " + r4;
    var t3 := t4;
    LexBlank(" ", r4, t4);
    var r2 := [')'] + r3;
    var t2 := [Token(CloseParen, ")")] + t3;
    LexSym(')', CloseParen, r3, t3);
    var r1 := "10" + r2;
    var t1 := [Token(Literal(Int), "10")] + t2;
    LexInt("10", r2, t2);
    var r0 := " " + r1;
    var t0 := t1;
    LexBlank(" ", r1, t1);
    assert " 10) {\n" + rest == r0;
    assert [Token(Literal(Int), "10"), Token(CloseParen, ")"), Token(OpenBrace, "{")] + ts == t0;
  }

  /** Line 2 of the while-loop test input, proved in 2 parts. */
  lemma WhileLoopTestLine2(rest: string, ts: seq<Token>)
    requires LexesAs(rest, ts)
    ensures LexesAs("            while (i < 10) {\n" + rest, [
        Token(Ident, "while"),
        Token(OpenParen, "("),
        Token(Ident, "i"),
        Token(Lt, "<"),
        Token(Literal(Int), "10"),
        Token(CloseParen, ")"),
        Token(OpenBrace, "{")
      ] + ts)
  {
    var r1 := " 10) {\n" + rest;
    var t1 := [Token(Literal(Int), "10"), Token(CloseParen, ")"), Token(OpenBrace, "{")] + ts;
    WhileLoopTestLine2B(rest, ts);
    var r0 := "            while (i <" + r1;
    var t0 := [Token(Ident, "while"), Token(OpenParen, "("), Token(Ident, "i"), Token(Lt, "<")] + t1;
    WhileLoopTestLine2A(r1, t1);
    assert "            while (i < 10) {\n" + rest == r0;
    assert [Token(Ident, "while"), Token(OpenParen, "("), Token(Ident, "i"), Token(Lt, "<"), Token(Literal(Int), "10"), Token(CloseParen, ")"), Token(OpenBrace, "{")] + ts == t0;
  }

  /** Line 3 of the while-loop test input, part 1 of 2. */
  lemma WhileLoopTestLine3A(rest: string, ts: seq<Token>)
    requires LexesAs(rest, ts)
    ensures LexesAs("                i = i " + rest, [Token(Ident, "i"), Token(Eq, "="), Token(Ident, "i")] + ts)
  {
    var r6 := " " + rest;
    var t6 := ts;
    LexBlank(" ", rest, ts);
    var r5 := "i" + r6;
    var t5 := [Token(Ident, "i")] + t6;
    LexWord("i", r6, t6);
    var r4 := " " + r5;
    var t4 := t5;
    LexBlank(" ", r5, t5);
    var r3 := ['='] + r4;
    var t3 := [Token(Eq, "=")] + t4;
    LexSym('=', Eq, r4, t4);
    var r2 := " " + r3;
    var t2 := t3;
    LexBlank(" ", r3, t3);
    var r1 := "i" + r2;
    var t1 := [Token(Ident, "i")] + t2;
    LexWord("i", r2, t2);
    var r0 := "                " + r1;
    var t0 := t1;
    LexBlank("                ", r1, t1);
    assert "                i = i " + rest == r0;
    assert [Token(Ident, "i"), Token(Eq, "="), Token(Ident, "i")] + ts == t0;
  }

  /** Line 3 of the while-loop test input, part 2 of 2. */
  lemma WhileLoopTestLine3B(rest: string, ts: seq<Token>)
    requires LexesAs(rest, ts)
    ensures LexesAs("+ 1;\n" + rest, [Token(Plus, "+"), Token(Literal(Int), "1"), Token(Semi, ";")] + ts)
  {
    var r4 := "\n" + rest;
    var t4 := ts;
    LexBlank("\n", rest, ts);
    var r3 := [';'] + r4;
    var t3 := [Token(Semi, ";")] + t4;
    LexSym(';', Semi, r4, t4);
    var r2 := "1" + r3;
    var t2 := [Token(Literal(Int), "1")] + t3;
    LexInt("1", r3, t3);
    var r1 := " " + r2;
    var t1 := t2;
    LexBlank(" ", r2, t2);
    var r0 := ['+'] + r1;
    var t0 := [Token(Plus, "+")] + t1;
    LexSym('+', Plus, r1, t1);
    assert "+ 1;\n" + rest == r0;
    assert [Token(Plus, "+"), Token(Literal(Int), "1"), Token(Semi, ";")] + ts == t0;
  }

  /** Line 3 of the while-loop test input, proved in 2 parts. */
  lemma WhileLoopTestLine3(rest: string, ts: seq<Token>)
    requires LexesAs(rest, ts)
    ensures LexesAs("                i = i + 1;\n" + rest, [
        Token(Ident, "i"),
        Token(Eq, "="),
        Token(Ident, "i"),
        Token(Plus, "+"),
        Token(Literal(Int), "1"),
        Token(Semi, ";")
      ] + ts)
  {
    var r1 := "+ 1;\n" + rest;
    var t1 := [Token(Plus, "+"), Token(Literal(Int), "1"), Token(Semi, ";")] + ts;
    WhileLoopTestLine3B(rest, ts);
    var r0 := "                i = i " + r1;
    var t0 := [Token(Ident, "i"), Token(Eq, "="), Token(Ident, "i")] + t1;
    WhileLoopTestLine3A(r1, t1);
    assert "                i = i + 1;\n" + rest == r0;
    assert [Token(Ident, "i"), Token(Eq, "="), Token(Ident, "i"), Token(Plus, "+"), Token(Literal(Int), "1"), Token(Semi, ";")] + ts == t0;
  }

  /** Line 4 of the while-loop test input. */
  lemma WhileLoopTestLine4(rest: string, ts: seq<Token>)
    requires LexesAs(rest, ts)
    ensures LexesAs("            }\n" + rest, [Token(CloseBrace, "}")] + ts)
  {
    var r2 := "\n" + rest;
    var t2 := ts;
    LexBlank("\n", rest, ts);
    var r1 := ['}'] + r2;
    var t1 := [Token(CloseBrace, "}")] + t2;
    LexSym('}', CloseBrace, r2, t2);
    var r0 := "            " + r1;
    var t0 := t1;
    LexBlank("            ", r1, t1);
    assert "            }\n" + rest == r0;
    assert [Token(CloseBrace, "}")] + ts == t0;
  }
}
