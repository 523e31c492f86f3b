# rust-lexer in Dafny

A model of the lexer of ForAeons/rust-lexer. A `Lexer` is a cursor over
a source text. Each call of `Iterator::next` does the following:

- skips whitespace;
- returns `None` once the current character is the NUL sentinel, which
  the cursor holds past the end of the text;
- otherwise returns one `Token`:
  - one of 27 one-character punctuation and operator kinds;
  - an identifier, which is a maximal run of letters or `_`;
  - an integer literal, which is a maximal run of ASCII digits;
  - `Unknown`, for a single character that nothing else claims.

Keywords are plain identifiers, and `5.0` is three tokens.

The project has six modules:

- `Options`: the `Option` the iterator returns.
- `Tokens` (`token.dfy`): the token model of `src/token.rs`. It has the
  kinds, tokens, the derived equality, and the ordering of literal types.
- `Lexing` (`lexer.dfy`):
  - the character classes and the dispatch table;
  - `Step`, the pure specification of one request, and `IsScan`, a
    declarative one (skipped whitespace, exact literal, well-formed kind,
    maximal munch) that `Step` meets;
  - `Tokenize`, the whole token stream;
  - the class `Lexer`, which has the source's fields (`input`,
    `position`, `readPosition`, `ch`). Its methods mutate the cursor
    and are proved against `Step` and `Tokenize`.
- `LexerProperties` (`properties.dfy`):
  - a proof that `Step` is the only solution of `IsScan`;
  - coverage of the input by the tokens' literals;
  - the NUL cutoff;
  - how the stream of a concatenation splits at token boundaries.
- `LexerScenarios` (`scenarios.dfy`): the source's four unit tests,
  stated as theorems about the complete token stream of each test input.
- `CharIndexing` (`findings.dfy`): the cursor's read as written, on
  arbitrary Unicode text (see Findings).

Input is taken to be ASCII, which the `Lexer` constructor requires, for
two reasons:

- On ASCII text, the source's byte-length bound and character index
  agree. `CharIndexing.AsWrittenOnAscii` proves that the modelled read is
  then exactly the source's.
- On ASCII text, the source's `is_letter` (Rust's Unicode `is_alphabetic`
  or `_`) and Rust's `is_whitespace` coincide with the ASCII predicates
  `IsLetter` and `IsWhitespace`.

The one-character arms of the `match` in `next` (src/lib.rs:92-118) are
listed in the source's order as `SymbolArm`. `SymbolKind` returns the kind
of the first arm whose character is the current one, which is what the
`match` does. `Lexing.SymbolTableAgrees` proves that this table is the
kinds' own symbols from src/token.rs, read in the other direction.

## Model

| member | source | states |
|---|---|---|
| Tokens.NewToken | src/token.rs:7-11 | the token built carries exactly the given kind and literal |
| Tokens.TokenEquality | src/token.rs:1-5 | derived `PartialEq` on tokens: two tokens are equal iff their kinds and their literals are equal |
| Tokens.LiteralKindEquality | src/token.rs:24-26 | `Literal{kind}` values are equal iff their literal types are; a literal kind never equals a non-literal kind |
| Tokens.SymbolInjective | src/token.rs:28-82 | distinct one-character kinds stand for distinct characters |
| Tokens.Symbol | src/token.rs:28-82 | the character documented for each one-character kind, and none for the others; `SymbolInjective` and `Lexing.SymbolTableAgrees` state its properties |
| Tokens.Compare | src/token.rs:92-99 | the derived `Ord::cmp` on literal types: it compares declaration positions; `CompareIsTotalOrder` and `DeclarationOrder` state its properties |
| Tokens.CompareIsTotalOrder | src/token.rs:92-99 | derived `Ord` on literal types: Equal exactly on equal arguments, Less and Greater are converse, Less is transitive |
| Tokens.DeclarationOrder | src/token.rs:93-99 | the order is the declaration order Bool < Int < Float < Char < Str |
| Lexing.CharAt | src/lib.rs:35-39 | the cursor reads the sentinel NUL at every position past the end of the text |
| Lexing.IsLetter | src/lib.rs:72-74 | `is_letter`: an alphabetic character or `_`, here on ASCII; `CharClassesDisjoint` proves that letters are neither digits, whitespace, symbols nor NUL |
| Lexing.IsDigit | src/lib.rs:76-78 | `is_digit`: an ASCII decimal digit |
| Lexing.IsWhitespace | src/lib.rs:66-70 | the `is_whitespace` test of `skip_whitespace`, on ASCII: the space and TAB, LF, VT, FF, CR |
| Lexing.SymbolArm | src/lib.rs:92-118 | the 27 one-character arms of the `match`, in source order; `ArmAgrees` proves each one produces the kind whose symbol is its character |
| Lexing.SymbolKind | src/lib.rs:91-118 | the `match` on the current character: the kind of the first arm whose character it is; `SymbolTableAgrees` proves it is the inverse of the kinds' symbols |
| Lexing.ArmAgrees | src/lib.rs:92-118 | each one-character arm of the dispatch produces the kind whose own symbol is the arm's character |
| Lexing.ArmOf | src/lib.rs:92-118 | a kind has an arm of the dispatch iff it is a one-character kind, and that arm produces it |
| Lexing.SymbolTableAgrees | src/lib.rs:91-118 | the dispatch table maps `c` to kind `k` iff `k` is the kind whose symbol is `c`, so each one-character token's literal is its own symbol |
| Lexing.CharClassesDisjoint | src/lib.rs:72-78 | letters, digits, whitespace and the symbols are pairwise disjoint and exclude NUL, so the order of the dispatch arms does not matter |
| Lexing.RunEnd | src/lib.rs:52-54 | a loop advancing while the current character is in a class never moves back, and stops inside the text whenever it moves |
| Lexing.RunEndIsRun | src/lib.rs:52-54 | that loop stops exactly at the end of the maximal run of the class |
| Lexing.RunUnique | src/lib.rs:52-54 | the maximal run from a position is unique |
| Lexing.Step | src/lib.rs:84-130 | a request that emits a token strictly advances the position and stays inside the text |
| Lexing.StepMeetsSpec | src/lib.rs:84-130 | one request satisfies the declarative specification `IsScan` (skipped whitespace, exact literal, well-formed kind, maximal munch) |
| Lexing.TokenizeFrom | src/lib.rs:81-130 | repeated requests terminate, with at most as many tokens as remaining characters |
| Lexing.TokenizeWellFormed | src/lib.rs:91-126 | every token of the stream is well formed: a non-empty letter run for an identifier, a non-empty digit run for an integer, the kind's own symbol for a one-character kind, one unclaimed character for `Unknown` |
| Lexing.Tokenize | src/lib.rs:81-130 | the whole token stream of a text: the tokens that repeated calls of `next` on a fresh lexer return; `Lexing.Collect` proves the cursor produces exactly it |
| Lexing.Lexer.constructor | src/lib.rs:21-30 | a new lexer is on position 0 with `read_position` 1, holds the first character (or NUL for empty text), and will produce `Tokenize(input)` |
| Lexing.Lexer.ReadChar | src/lib.rs:34-42 | the advance moves `position` to the old `read_position`, loads the character there or NUL past the end, and increments `read_position` |
| Lexing.Lexer.ConsumeChar | src/lib.rs:44-48 | returns the current character as a one-character string and advances by exactly one |
| Lexing.Lexer.ReadIdent | src/lib.rs:50-56 | advances to the end of the maximal letter run and returns exactly the text between the old and new positions |
| Lexing.Lexer.ReadNumber | src/lib.rs:58-64 | advances to the end of the maximal digit run and returns exactly the text between the old and new positions |
| Lexing.Lexer.SkipWhitespace | src/lib.rs:66-70 | advances to the end of the maximal whitespace run |
| Lexing.Lexer.Next | src/lib.rs:84-130 | `next` returns what `Step` specifies and moves to its end; it returns `None` iff no tokens remain; a token returned is the head of the remaining stream; after `None` (and on a later call) `ch` is NUL and the position stays put |
| Lexing.Collect | src/lib.rs:81-82 | draining the iterator of a fresh lexer yields exactly `Tokenize(input)` |
| LexerProperties.WellFormedLiteral | src/lib.rs:91-126 | every produced token has a non-empty literal without whitespace or NUL, whose first character determines its kind |
| LexerProperties.ScanUnique | src/lib.rs:84-130 | the declarative specification of a request has at most one solution |
| LexerProperties.StepIsTheScan | src/lib.rs:84-130 | a scan satisfies the declarative specification iff it is `Step` |
| LexerProperties.Coverage | src/lib.rs:84-130 | for NUL-free text, the literals of the token stream concatenate to the text with its whitespace removed |
| LexerProperties.NulEndsStream | src/lib.rs:87-89 | an embedded NUL ends the stream: `Tokenize(s + [NUL] + r) == Tokenize(s)` |
| LexerProperties.StepSuffix | src/lib.rs:84-130 | a request depends only on the text from the cursor on: on a suffix it gives the same scan, shifted by the suffix's offset |
| LexerProperties.TokenizeSuffix | src/lib.rs:81-130 | the rest of the stream depends only on the text from the cursor on: scanning a suffix gives the same tokens |
| LexerProperties.TokenizeShift | src/lib.rs:84-130 | a request depends only on the text from the cursor on: lexing `p + r` from position `i` past the end of `p` is lexing `r` from `i` |
| LexerProperties.SkipsWhitespace | src/lib.rs:66-70 | a leading whitespace character produces no token |
| LexerProperties.SkipsBlank | src/lib.rs:85-85 | leading whitespace of any length produces no token |
| LexerProperties.SymbolToken | src/lib.rs:91-118 | a leading symbol character yields exactly its one-character token, followed by the stream of the rest |
| LexerProperties.UnknownToken | src/lib.rs:126-126 | a leading unclaimed character yields one `Unknown` token holding it, followed by the stream of the rest; it describes the source for ASCII characters only, because the model's classes are ASCII (see "## Left out") |
| LexerProperties.WordIsOneIdent | src/lib.rs:119-119 | a maximal letter run yields exactly one identifier token with that text, followed by the stream of the rest |
| LexerProperties.DigitsAreOneInt | src/lib.rs:120-125 | a maximal digit run yields exactly one `Literal{Int}` token with that text, followed by the stream of the rest |
| LexerScenarios.LexesNothing | src/lib.rs:87-89 | the empty text produces no tokens |
| LexerScenarios.KeywordsAreIdents | src/token.rs:18-21 | `let`, `fn`, `return` and `while` each lex as one identifier |
| LexerScenarios.DigitDotSplit | src/lib.rs:205-205 | `5.0` lexes as integer `5`, dot, integer `0`: there are no decimal literals |
| LexerScenarios.SingleCharTokensTest | src/lib.rs:138-176 | the one-character test input lexes to exactly the 27 expected symbol tokens, in order |
| LexerScenarios.NextTokenTest | src/lib.rs:179-200 | `let five = 5;` lexes to exactly the expected five tokens |
| LexerScenarios.FnDeclarationTest | src/lib.rs:203-274 | the function declaration input lexes to exactly the 39 expected tokens |
| LexerScenarios.WhileLoopTest | src/lib.rs:277-326 | the while-loop input lexes to exactly the 19 expected tokens |
| CharIndexing.ReadCharAsWritten | src/lib.rs:34-42 | the read of `read_char` as written: NUL once `read_position` reaches the byte length, otherwise the character at that index, or no value where `unwrap` panics |
| CharIndexing.ByteLen | src/lib.rs:35-35 | the byte length of a text is at least its number of characters |
| CharIndexing.ByteLenIsLength | src/lib.rs:35-38 | byte length equals character count iff the text is ASCII |
| CharIndexing.AsWrittenOnAscii | src/lib.rs:34-42 | on ASCII text, the read as written equals the modelled `CharAt` at every position |
| CharIndexing.AsWrittenAgreesWhenDefined | src/lib.rs:34-42 | wherever the read as written does not panic, it agrees with `CharAt` |
| CharIndexing.PanicsAtEndIffNonAscii | src/lib.rs:35-38 | as written, reading at the end of the characters panics iff the text is not ASCII; `CharAt` yields NUL there |
| CharIndexing.NumeroSignPanics | src/token.rs:84-85 | on the text "№" (the `Unknown` example of the documentation, whose bytes there are a mis-encoded "№", taken as intended) the first read succeeds and the next one, inside the first request, panics |

The scenario lemmas state the complete token stream of each test input.
The source's tests check only that `next` returns the expected tokens in
order, which is a prefix of that stream. The input and the expected
tokens of the longer tests are written grouped by source line. The
one-character test line is split in three pieces. The line-by-line
helper lemmas in `scenarios.dfy` (`...Line1`, `...Line1A`, `LexWord`,
`LexInt`, `LexBlank`, `LexSym`) carry the proof. The `let` declarations
that recur across the tests share `LexLetEq` (`let <name> =`) and
`LexLetInt` (`let <name> = <digits>;`), the two call heads share
`LexCallHead` (`<name>(<arg>, `), and the two declarations whose value
starts with a call share `LexLetCall`.

## Left out

- Unicode character classes. `is_alphabetic` (src/lib.rs:73) and
  `is_whitespace` (src/lib.rs:67) are modelled on ASCII only. The
  Unicode tables are library data outside this repository. The cursor
  class requires ASCII input accordingly.
- Lexing.Lexer.constructor: requires ASCII input. The source accepts any
  `&str`. On multi-byte text it panics, unless an earlier NUL ends the
  stream (see Findings). In some such cases it instead returns a wrong
  literal, because it slices by byte offsets (next item). The cursor
  class is not defined on multi-byte text.
- Tokenize and the LexerProperties lemmas are stated for every text, but
  with the ASCII character classes above. They therefore make every
  non-ASCII character an `Unknown` token. This departs from the intended
  behaviour only for characters that Unicode calls alphabetic or
  whitespace: `é` should start an identifier and U+00A0 should be
  skipped. For any other character, such as `№`, the model gives the
  intended `Unknown` token. The source returns that stream only when a
  NUL stops its cursor before the end of the characters (on `"№\0"` it
  yields `Unknown "№"` and then nothing); otherwise it panics (see
  Findings).
- Slicing by byte offsets in `read_ident` and `read_number` (src/lib.rs:55,
  src/lib.rs:63). The source uses character positions as byte offsets. On
  ASCII text this coincides with the modelled character slicing, and ASCII
  is the only text the model lexes. On other text the source returns
  literals cut at the wrong bytes, or panics. On `"éa\0"` (a NUL after
  `é` and `a`) the identifier loop stops at character position 2, and
  `input[0..2]` is the two bytes of `é`, so the identifier is `"é"`
  instead of `"éa"`. Without the NUL, `"éa"` panics at the read of
  index 2 instead, because 2 is below the byte length 3.
- `usize` overflow of `read_position` is not modelled. Positions are
  unbounded naturals; a text would need `usize::MAX` characters to reach
  it.
- Heap allocation of `String` literals (`to_owned`, `to_string`) and the
  derived `Debug`/`Clone`/`Copy` impls carry no behaviour here. Literals
  are plain `string` values.
- `WhiteSpace`, `Eof` and the literal types `Bool`, `Float`, `Char` and
  `Str` are declared but never produced. They exist in the data model
  only, and `WellFormed` excludes them from produced tokens.
- The lifetime `'a` and the borrowed `&str` input: `input` is an
  immutable `const` field.
- Lexing.CharAt: its contract states only the sentinel past the end.
  Inside the text it is `s[i]` by definition.

## Findings

| source | as written | input that shows it | evidently intended | confidence | as-written member | corrected member |
|---|---|---|---|---|---|---|
| src/lib.rs:35-38 | the end test compares `read_position` with `input.len()`, the UTF-8 byte length, but the read takes `chars().nth(read_position)`, a character index, and unwraps it | "№" (one character, three bytes): the first `next` consumes the character, its advance reads at index 1 < 3, `nth(1)` is `None`, and `unwrap` panics; on any non-ASCII text a read at the end of the characters panics, so the cursor panics there unless an earlier NUL or an earlier slicing panic ends the request | bound the read by the number of characters, so the cursor yields NUL past the end on any text, as the sentinel policy and the `Unknown` example at src/token.rs:84 intend (its text is a mis-encoded "№", read here as intended); a lexer free of panics on such text also needs character-based slicing at src/lib.rs:55 and src/lib.rs:63, which the model does on ASCII only | high; not executed | CharIndexing.PanicsAtEndIffNonAscii | Lexing.CharAt |

The corrected read `Lexing.CharAt` is the read that `Lexing.Lexer.ReadChar`
and the whole model use. `CharIndexing.AsWrittenAgreesWhenDefined` shows
that it differs from the written code only where that code panics.
`Lexing.Lexer.Next` and `Lexing.Collect` are proved on ASCII text only.
There, `CharIndexing.AsWrittenOnAscii` shows that the written read
already agrees with `CharAt`. The correction therefore matters only for
non-ASCII text, which the lexer model does not cover.
