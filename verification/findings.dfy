/**
 * The cursor's read as the source writes it: the end-of-text test compares
 * `read_position` with the UTF-8 byte length of the input, while the read
 * itself takes the `read_position`-th character. The two agree only on
 * ASCII text; on any other text the read runs off the characters before
 * the byte bound is reached, and `unwrap` panics.
 *
 * The rest of the model reads with `Lexing.CharAt`, which bounds by the
 * number of characters: the read the sentinel policy intends.
 */
module CharIndexing {
  import opened Options
  import opened Lexing

  /** The number of bytes in the UTF-8 encoding of one character. */
  function Utf8Width(c: char): (n: nat)
    ensures 1 <= n <= 4
    ensures n == 1 <==> c as int < 128
  {
    if c as int < 0x80 then 1
    else if c as int < 0x800 then 2
    else if c as int < 0x1_0000 then 3
    else 4
  }

  /** The length of a string in bytes, as Rust's `str::len` reports it. */
  function ByteLen(s: string): (n: nat)
    ensures n >= |s|
  {
    if s == [] then 0 else Utf8Width(s[0]) + ByteLen(s[1..])
  }

  /** Byte length and character count agree exactly on ASCII text. */
  lemma {:induction false} ByteLenIsLength(s: string)
    ensures ByteLen(s) == |s| <==> IsAscii(s)
  {
    if s != [] {
      ByteLenIsLength(s[1..]);
      if IsAscii(s) {
        assert IsAscii(s[1..]) by {
          forall i | 0 <= i < |s[1..]|
            ensures s[1..][i] as int < 128
          {
            assert s[1..][i] == s[i + 1];
          }
        }
      } else if s[0] as int < 128 {
        var i :| 0 <= i < |s| && s[i] as int >= 128;
        assert s[1..][i - 1] == s[i];
      }
    }
  }

  /**
   * One read of the cursor as written, at `readPosition`: the sentinel once
   * the position reaches the byte length, otherwise the character at that
   * character index, or `None` where there is no such character and the
   * source's `unwrap` panics.
   */
  function ReadCharAsWritten(s: string, readPosition: nat): Option<char>
  {
    if readPosition >= ByteLen(s) then Some(NUL)
    else if readPosition < |s| then Some(s[readPosition])
    else None
  }

  /** On ASCII text the read as written is exactly `CharAt`: the model's read loses nothing there. */
  lemma AsWrittenOnAscii(s: string, i: nat)
    requires IsAscii(s)
    ensures ReadCharAsWritten(s, i) == Some(CharAt(s, i))
  {
    ByteLenIsLength(s);
  }

  /** Wherever the read as written does not panic, it agrees with the corrected read. */
  lemma AsWrittenAgreesWhenDefined(s: string, i: nat)
    requires ReadCharAsWritten(s, i).Some?
    ensures ReadCharAsWritten(s, i) == Some(CharAt(s, i))
  {
  }

  /**
   * The discrepancy: the cursor as written panics when it reaches the end of
   * the characters exactly when the text is not ASCII; the corrected read
   * yields the sentinel there on every text.
   */
  lemma {:induction false} PanicsAtEndIffNonAscii(s: string)
    ensures ReadCharAsWritten(s, |s|) == None <==> !IsAscii(s)
    ensures CharAt(s, |s|) == NUL
  {
    ByteLenIsLength(s);
  }

  /**
   * The `Unknown` example of the token kinds' own documentation, whose
   * text is a mis-encoded "№", taken here as the intended character: on the
   * one-character text "№" (three bytes) the first read succeeds, and the
   * advance past it, inside the first request, panics.
   */
  lemma NumeroSignPanics()
    ensures ReadCharAsWritten("№", 0) == Some('№')
    ensures ReadCharAsWritten("№", 1) == None
    ensures CharAt("№", 1) == NUL
  {
    assert ByteLen("№") == 3 by {
      assert "№"[1..] == [];
    }
  }
}
