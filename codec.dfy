/**
 * The part of the Borsh encoding of `AccountState` the program can observe:
 * its length. Serializing into the fixed-size account buffer fails when the
 * encoding is longer than the buffer.
 */
module Codec {
  import opened State

  /** Bytes UTF-8 uses for one Unicode scalar value. */
  function Utf8Width(c: char): (n: nat)
    ensures 1 <= n <= 4
    ensures c as int < 0x80 <==> n == 1
  {
    if c as int < 0x80 then 1
    else if c as int < 0x800 then 2
    else if c as int < 0x1_0000 then 3
    else 4
  }

  /** Length of the UTF-8 bytes of `s` (Rust `s.len()`). */
  function Utf8Len(s: string): (n: nat) {
    if s == [] then 0 else Utf8Width(s[0]) + Utf8Len(s[1..])
  }

  lemma {:induction false} Utf8LenBounds(s: string)
    ensures |s| <= Utf8Len(s) <= 4 * |s|
  {
    if s != [] {
      Utf8LenBounds(s[1..]);
    }
  }

  /** Borsh writes a `String` as a 4-byte length prefix and its UTF-8 bytes. */
  function StringLen(s: string): (n: nat) {
    4 + Utf8Len(s)
  }

  /** Borsh length of an `AccountState`: one byte each for the flag and the rating. */
  function EncodedLen(st: AccountState): (n: nat) {
    1 + StringLen(st.title) + 1 + StringLen(st.description) + StringLen(st.location)
  }

  /** Serializing `st` into a buffer of `space` bytes succeeds. */
  predicate Fits(st: AccountState, space: nat) {
    EncodedLen(st) <= space
  }

  /** Text content of a record, counted in characters. */
  function TextChars(st: AccountState): (n: nat) {
    |st.title| + |st.description| + |st.location|
  }

  /**
   * The encoding's length lies between 14 bytes plus one per character and
   * 14 bytes plus four per character.
   */
  lemma EncodedLenBounds(st: AccountState)
    ensures 14 + TextChars(st) <= EncodedLen(st) <= 14 + 4 * TextChars(st)
  {
    Utf8LenBounds(st.title);
    Utf8LenBounds(st.description);
    Utf8LenBounds(st.location);
  }

  /** A record whose texts total at most 246 characters always fits a review account. */
  lemma ShortRecordFits(st: AccountState)
    requires TextChars(st) <= 246
    ensures Fits(st, AccountLen)
  {
    EncodedLenBounds(st);
  }

  /** A record whose texts exceed 986 characters never fits a review account. */
  lemma LongRecordNeverFits(st: AccountState)
    requires TextChars(st) > AccountLen - 14
    ensures !Fits(st, AccountLen)
  {
    EncodedLenBounds(st);
  }
}
