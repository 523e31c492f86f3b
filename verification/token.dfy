/**
 * The token model: a token is a kind paired with the exact source text
 * (its literal) that produced it.
 */
module Tokens {
  import opened Options

  /** The literal types. Only `Int` is ever produced by the lexer; the rest are reserved. */
  datatype LiteralKind = Bool | Int | Float | Char | Str

  /**
   * The closed set of token kinds: 27 one-character punctuation and operator
   * kinds, identifiers, literals, the unknown-character fallback, and the
   * declared but never produced `WhiteSpace` and `Eof`.
   */
  datatype TokenKind =
    | WhiteSpace
    | Ident              // keywords are identifiers too at this layer
    | Literal(kind: LiteralKind)
    | Semi | Comma | Dot | OpenParen | CloseParen | OpenBrace | CloseBrace
    | OpenBracket | CloseBracket | At | Pound | Tilde | Question | Colon | Dollar
    | Eq | Bang | Lt | Gt | Minus | And | Or | Plus | Star | Slash | Caret | Percent
    | Unknown
    | Eof

  datatype Token = Token(kind: TokenKind, literal: string)

  /** Builds a token from a kind and its literal. */
  function NewToken(kind: TokenKind, literal: string): (t: Token)
    ensures t.kind == kind && t.literal == literal
  {
    Token(kind, literal)
  }

  /** The one character that each one-character kind stands for; `None` for every other kind. */
  function Symbol(k: TokenKind): Option<char>
  {
    match k
    case Semi => Some(';')
    case Comma => Some(',')
    case Dot => Some('.')
    case OpenParen => Some('(')
    case CloseParen => Some(')')
    case OpenBrace => Some('{')
    case CloseBrace => Some('}')
    case OpenBracket => Some('[')
    case CloseBracket => Some(']')
    case At => Some('@')
    case Pound => Some('#')
    case Tilde => Some('~')
    case Question => Some('?')
    case Colon => Some(':')
    case Dollar => Some('$')
    case Eq => Some('=')
    case Bang => Some('!')
    case Lt => Some('<')
    case Gt => Some('>')
    case Minus => Some('-')
    case And => Some('&')
    case Or => Some('|')
    case Plus => Some('+')
    case Star => Some('*')
    case Slash => Some('/')
    case Caret => Some('^')
    case Percent => Some('%')
    case _ => None
  }

  /** Distinct one-character kinds stand for distinct characters. */
  lemma SymbolInjective(a: TokenKind, b: TokenKind)
    requires Symbol(a).Some? && Symbol(a) == Symbol(b)
    ensures a == b
  {
  }

  /** Token equality is field-wise equality (the derived `PartialEq`). */
  lemma TokenEquality(a: Token, b: Token)
    ensures a == b <==> a.kind == b.kind && a.literal == b.literal
  {
  }

  /** Two literal kinds are equal exactly when their inner literal types are; a literal kind is never another variant. */
  lemma LiteralKindEquality(a: LiteralKind, b: LiteralKind, k: TokenKind)
    ensures Literal(a) == Literal(b) <==> a == b
    ensures !k.Literal? ==> Literal(a) != k
  {
  }

  datatype Ordering = Less | Equal | Greater

  /** The position of a literal type in its declaration. */
  function Rank(k: LiteralKind): nat
  {
    match k
    case Bool => 0
    case Int => 1
    case Float => 2
    case Char => 3
    case Str => 4
  }

  /** The derived `Ord` comparison of literal types: declaration order. */
  function Compare(a: LiteralKind, b: LiteralKind): Ordering
  {
    if Rank(a) < Rank(b) then Less
    else if Rank(a) == Rank(b) then Equal
    else Greater
  }

  /** `Compare` is a total order: it answers Equal only on equal arguments, is antisymmetric and transitive. */
  lemma CompareIsTotalOrder(a: LiteralKind, b: LiteralKind, c: LiteralKind)
    ensures Compare(a, b) == Equal <==> a == b
    ensures Compare(a, b) == Less <==> Compare(b, a) == Greater
    ensures Compare(a, b) == Less && Compare(b, c) == Less ==> Compare(a, c) == Less
  {
  }

  /** The declaration order: Bool < Int < Float < Char < Str. */
  lemma DeclarationOrder()
    ensures Compare(Bool, Int) == Less && Compare(Int, Float) == Less
    ensures Compare(Float, Char) == Less && Compare(Char, Str) == Less
  {
  }

}
