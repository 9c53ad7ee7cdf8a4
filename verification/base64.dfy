/**
 * Base64 as Go's encoding/base64 implements it for StdEncoding and
 * URLEncoding: the alphabets of section 4 and section 5 of RFC 4648, padded
 * with '=' to a multiple of four characters.  Decoding follows Go's
 * non-strict decoder: carriage returns and line feeds are skipped anywhere,
 * padding is accepted only in the last quantum, and the unused low bits of
 * the last character are ignored.
 */
module Base64 {
  import opened Wrappers

  type Byte = b: int | 0 <= b < 256

  datatype Alphabet = Standard | UrlSafe

  const Pad: char := '='

  /** The value-to-character table: section 4 (Standard) or section 5 (UrlSafe) of RFC 4648. */
  function Digit(a: Alphabet, v: nat): (c: char)
    requires v < 64
    ensures c != Pad && c != '\r' && c != '\n'
  {
    if v < 26 then ('A' as int + v) as char
    else if v < 52 then ('a' as int + v - 26) as char
    else if v < 62 then ('0' as int + v - 52) as char
    else if v == 62 then (if a == Standard then '+' else '-')
    else (if a == Standard then '/' else '_')
  }

  predicate InAlphabet(a: Alphabet, c: char)
  {
    'A' <= c <= 'Z' || 'a' <= c <= 'z' || '0' <= c <= '9'
    || c == (if a == Standard then '+' else '-')
    || c == (if a == Standard then '/' else '_')
  }

  /** The inverse table: the 6-bit value a character of the alphabet stands for. */
  function Value(a: Alphabet, c: char): (v: nat)
    requires InAlphabet(a, c)
    ensures v < 64 && Digit(a, v) == c
  {
    if 'A' <= c <= 'Z' then c as int - 'A' as int
    else if 'a' <= c <= 'z' then c as int - 'a' as int + 26
    else if '0' <= c <= '9' then c as int - '0' as int + 52
    else if c == (if a == Standard then '+' else '-') then 62
    else 63
  }

  /** The table is a bijection between 0..63 and the 64 characters of the alphabet. */
  lemma DigitTable(a: Alphabet, v: nat)
    requires v < 64
    ensures InAlphabet(a, Digit(a, v)) && Value(a, Digit(a, v)) == v
  {
  }

  /** EncodeToString: each 3-byte group becomes 4 characters; a final 1- or 2-byte group is padded. */
  function Encode(a: Alphabet, b: seq<Byte>): string
  {
    if |b| == 0 then ""
    else if |b| == 1 then
      [Digit(a, b[0] / 4), Digit(a, (b[0] % 4) * 16), Pad, Pad]
    else if |b| == 2 then
      [Digit(a, b[0] / 4), Digit(a, (b[0] % 4) * 16 + b[1] / 16), Digit(a, (b[1] % 16) * 4), Pad]
    else
      [Digit(a, b[0] / 4), Digit(a, (b[0] % 4) * 16 + b[1] / 16),
       Digit(a, (b[1] % 16) * 4 + b[2] / 64), Digit(a, b[2] % 64)]
      + Encode(a, b[3..])
  }

  /** Number of characters of the encoding of n bytes that carry data: ceil(8n / 6). */
  function DataLength(n: nat): nat
  {
    (8 * n + 5) / 6
  }

  /**
   * The encoding of n bytes has 4 * ceil(n / 3) characters: the first
   * ceil(8n / 6) are alphabet characters and the rest are padding.
   */
  lemma {:induction false} EncodeShape(a: Alphabet, b: seq<Byte>)
    ensures |Encode(a, b)| == 4 * ((|b| + 2) / 3)
    ensures DataLength(|b|) <= |Encode(a, b)|
    ensures forall i :: 0 <= i < DataLength(|b|) ==> InAlphabet(a, Encode(a, b)[i])
    ensures forall i :: DataLength(|b|) <= i < |Encode(a, b)| ==> Encode(a, b)[i] == Pad
  {
    if |b| >= 3 {
      EncodeShape(a, b[3..]);
      EncodeStepShape(a, b);
    } else {
      ShortEncodeShape(a, b);
    }
  }

  /** The shape of an encoding of n bytes: its length, alphabet characters first, padding after. */
  predicate Shaped(a: Alphabet, n: nat, e: string)
  {
    |e| == 4 * ((n + 2) / 3)
    && DataLength(n) <= |e|
    && (forall i :: 0 <= i < DataLength(n) ==> InAlphabet(a, e[i]))
    && (forall i :: DataLength(n) <= i < |e| ==> e[i] == Pad)
  }

  lemma EncodeStepShape(a: Alphabet, b: seq<Byte>)
    requires |b| >= 3 && Shaped(a, |b| - 3, Encode(a, b[3..]))
    ensures Shaped(a, |b|, Encode(a, b))
  {
    var e := Encode(a, b);
    var tail := Encode(a, b[3..]);
    assert |e| == 4 + |tail| && e[4..] == tail;
    assert DataLength(|b|) == 4 + DataLength(|b| - 3);
    forall i | 0 <= i < DataLength(|b|) ensures InAlphabet(a, e[i]) {
      if i < 4 {
        FirstQuantumInAlphabet(a, b, i);
      } else {
        assert e[i] == tail[i - 4];
      }
    }
    forall i | DataLength(|b|) <= i < |e| ensures e[i] == Pad {
      assert e[i] == tail[i - 4];
    }
  }

  lemma ShortEncodeShape(a: Alphabet, b: seq<Byte>)
    requires |b| < 3
    ensures Shaped(a, |b|, Encode(a, b))
  {
    if |b| == 2 {
      DigitTable(a, b[0] / 4);
      DigitTable(a, (b[0] % 4) * 16 + b[1] / 16);
      DigitTable(a, (b[1] % 16) * 4);
    } else if |b| == 1 {
      DigitTable(a, b[0] / 4);
      DigitTable(a, (b[0] % 4) * 16);
    }
  }

  lemma FirstQuantumInAlphabet(a: Alphabet, b: seq<Byte>, i: nat)
    requires |b| >= 3 && i < 4
    ensures InAlphabet(a, Encode(a, b)[i])
  {
    DigitTable(a, if i == 0 then b[0] / 4 else if i == 1 then (b[0] % 4) * 16 + b[1] / 16
                  else if i == 2 then (b[1] % 16) * 4 + b[2] / 64 else b[2] % 64);
  }

  /** The input with every carriage return and line feed removed. */
  function SkipNewlines(s: string): (r: string)
    ensures |r| <= |s|
  {
    if |s| == 0 then ""
    else if s[0] == '\r' || s[0] == '\n' then SkipNewlines(s[1..])
    else [s[0]] + SkipNewlines(s[1..])
  }

  /** Decodes whole quanta; padding may appear only in the last one. */
  function DecodeQuanta(a: Alphabet, s: string): Option<seq<Byte>>
    decreases |s|
  {
    if |s| == 0 then Some([])
    else if |s| < 4 || !InAlphabet(a, s[0]) || !InAlphabet(a, s[1]) then None
    else
      var v0, v1 := Value(a, s[0]), Value(a, s[1]);
      if InAlphabet(a, s[2]) && InAlphabet(a, s[3]) then
        var v2, v3 := Value(a, s[2]), Value(a, s[3]);
        match DecodeQuanta(a, s[4..])
        case None => None
        case Some(rest) =>
          Some([v0 * 4 + v1 / 16, (v1 % 16) * 16 + v2 / 4, (v2 % 4) * 64 + v3] + rest)
      else if |s| == 4 && s[2] == Pad && s[3] == Pad then
        Some([v0 * 4 + v1 / 16])
      else if |s| == 4 && InAlphabet(a, s[2]) && s[3] == Pad then
        Some([v0 * 4 + v1 / 16, (v1 % 16) * 16 + Value(a, s[2]) / 4])
      else None
  }

  /** DecodeString: None is Go's CorruptInputError. */
  function Decode(a: Alphabet, s: string): Option<seq<Byte>>
  {
    DecodeQuanta(a, SkipNewlines(s))
  }

  lemma SkipNewlinesOfEncoding(a: Alphabet, b: seq<Byte>)
    ensures SkipNewlines(Encode(a, b)) == Encode(a, b)
  {
    EncodeShape(a, b);
    NoNewlinesKept(Encode(a, b));
  }

  lemma {:induction false} NoNewlinesKept(s: string)
    requires forall i :: 0 <= i < |s| ==> s[i] != '\r' && s[i] != '\n'
    ensures SkipNewlines(s) == s
  {
    if |s| > 0 {
      NoNewlinesKept(s[1..]);
    }
  }

  /** Regrouping three bytes into four 6-bit values and back is lossless. */
  lemma Regroup(b0: Byte, b1: Byte, b2: Byte)
    ensures (b0 / 4) * 4 + ((b0 % 4) * 16 + b1 / 16) / 16 == b0
    ensures (((b0 % 4) * 16 + b1 / 16) % 16) * 16 + ((b1 % 16) * 4 + b2 / 64) / 4 == b1
    ensures (((b1 % 16) * 4 + b2 / 64) % 4) * 64 + b2 % 64 == b2
  {
  }

  /** Decoding an encoding gives back the bytes. */
  lemma {:induction false} DecodeEncode(a: Alphabet, b: seq<Byte>)
    ensures Decode(a, Encode(a, b)) == Some(b)
  {
    SkipNewlinesOfEncoding(a, b);
    DecodeQuantaEncode(a, b);
  }

  lemma {:induction false} DecodeQuantaEncode(a: Alphabet, b: seq<Byte>)
    ensures DecodeQuanta(a, Encode(a, b)) == Some(b)
  {
    if |b| >= 3 {
      DecodeQuantaEncode(a, b[3..]);
      DecodeFullQuantum(a, b);
    } else if |b| == 2 {
      DecodeTwoByteQuantum(a, b[0], b[1]);
      assert [b[0], b[1]] == b;
    } else if |b| == 1 {
      DecodeOneByteQuantum(a, b[0]);
      assert [b[0]] == b;
    }
  }

  lemma DecodeFullQuantum(a: Alphabet, b: seq<Byte>)
    requires |b| >= 3
    requires DecodeQuanta(a, Encode(a, b[3..])) == Some(b[3..])
    ensures DecodeQuanta(a, Encode(a, b)) == Some(b)
  {
    DecodeQuantumThen(a, b[0], b[1], b[2], Encode(a, b[3..]), b[3..]);
    assert b == [b[0], b[1], b[2]] + b[3..];
  }

  lemma DecodeQuantumThen(a: Alphabet, b0: Byte, b1: Byte, b2: Byte, rest: string, bytes: seq<Byte>)
    requires DecodeQuanta(a, rest) == Some(bytes)
    ensures DecodeQuanta(a, [Digit(a, b0 / 4), Digit(a, (b0 % 4) * 16 + b1 / 16),
                             Digit(a, (b1 % 16) * 4 + b2 / 64), Digit(a, b2 % 64)] + rest)
            == Some([b0, b1, b2] + bytes)
  {
    var c0, c1, c2, c3 := b0 / 4, (b0 % 4) * 16 + b1 / 16, (b1 % 16) * 4 + b2 / 64, b2 % 64;
    var s := [Digit(a, c0), Digit(a, c1), Digit(a, c2), Digit(a, c3)] + rest;
    DigitTable(a, c0);
    DigitTable(a, c1);
    DigitTable(a, c2);
    DigitTable(a, c3);
    assert s[4..] == rest;
    assert Value(a, s[0]) == c0 && Value(a, s[1]) == c1 && Value(a, s[2]) == c2 && Value(a, s[3]) == c3;
    Regroup(b0, b1, b2);
  }

  lemma DecodeTwoByteQuantum(a: Alphabet, b0: Byte, b1: Byte)
    ensures DecodeQuanta(a, Encode(a, [b0, b1])) == Some([b0, b1])
  {
    var c0, c1, c2 := b0 / 4, (b0 % 4) * 16 + b1 / 16, (b1 % 16) * 4;
    var s := Encode(a, [b0, b1]);
    assert s == [Digit(a, c0), Digit(a, c1), Digit(a, c2), Pad];
    DigitTable(a, c0);
    DigitTable(a, c1);
    DigitTable(a, c2);
    Regroup(b0, b1, 0);
  }

  lemma DecodeOneByteQuantum(a: Alphabet, b0: Byte)
    ensures DecodeQuanta(a, Encode(a, [b0])) == Some([b0])
  {
    var c0, c1 := b0 / 4, (b0 % 4) * 16;
    var s := Encode(a, [b0]);
    assert s == [Digit(a, c0), Digit(a, c1), Pad, Pad];
    DigitTable(a, c0);
    DigitTable(a, c1);
    Regroup(b0, 0, 0);
  }
}
