/**
 * utils/shortener.go: random short codes over the URL-safe alphabet.
 * The random number generators are inputs: `draws` are the successive
 * results of seededRand.Intn(64), and `entropy` is what crypto/rand.Read
 * delivered (or its error).
 */
module Shortener {
  import opened Wrappers
  import opened Errors
  import Base64

  /** DefaultLength. */
  const DefaultLength: nat := 7

  /** The `charset` constant, written out range by range. */
  const Charset: string :=
    "abcdefghijklmnopqrstuvwxyz" + "ABCDEFGHIJKLMNOPQRSTUVWXYZ" + "0123456789" + "_-"

  /** A non-positive requested length falls back to DefaultLength. */
  function EffectiveLength(length: int): (n: nat)
    ensures n > 0
    ensures length > 0 ==> n == length
    ensures length <= 0 ==> n == DefaultLength
  {
    if length <= 0 then DefaultLength else length
  }

  lemma LowerRange(c: char)
    ensures c in "abcdefghijklmnopqrstuvwxyz" <==> 'a' <= c <= 'z'
  {
  }

  lemma UpperRange(c: char)
    ensures c in "ABCDEFGHIJKLMNOPQRSTUVWXYZ" <==> 'A' <= c <= 'Z'
  {
  }

  lemma DigitRange(c: char)
    ensures c in "0123456789" <==> '0' <= c <= '9'
  {
  }

  /** charset holds exactly the characters of the alphabet of section 5 of RFC 4648. */
  lemma CharsetIsUrlAlphabet(c: char)
    ensures |Charset| == 64
    ensures c in Charset <==> Base64.InAlphabet(Base64.UrlSafe, c)
  {
    LowerRange(c);
    UpperRange(c);
    DigitRange(c);
    assert c in "_-" <==> c == '_' || c == '-';
  }

  /** GenerateShortCode: one charset character per draw, over the effective length. */
  method GenerateShortCode(length: int, draws: seq<nat>) returns (code: string)
    requires forall i :: 0 <= i < |draws| ==> draws[i] < |Charset|
    requires |draws| >= EffectiveLength(length)
    ensures |code| == EffectiveLength(length)
    ensures forall i :: 0 <= i < |code| ==> code[i] == Charset[draws[i]]
    ensures forall i :: 0 <= i < |code| ==> code[i] in Charset
  {
    var n := length;
    if n <= 0 {
      n := DefaultLength;
    }
    var b := new char[n];
    for i := 0 to n
      invariant forall k :: 0 <= k < i ==> b[k] == Charset[draws[k]]
    {
      b[i] := Charset[draws[i]];
    }
    code := b[..];
  }

  /** numBytes: enough random bytes for 6 bits per output character, ceil(6 * length / 8). */
  function NumBytes(length: nat): (n: nat)
    ensures 8 * n >= 6 * length
    ensures n == 0 || 8 * (n - 1) < 6 * length
  {
    (length * 6 + 7) / 8
  }

  /**
   * GenerateSecureShortCode: the first `length` characters of the URL-safe
   * base64 encoding of NumBytes(length) random bytes.
   */
  function GenerateSecureShortCode(length: int, entropy: Result<seq<Base64.Byte>, Error>): (r: Result<string, Error>)
    requires entropy.Ok? ==> |entropy.value| >= NumBytes(EffectiveLength(length))
    ensures entropy.Err? <==> r.Err?
    ensures entropy.Err? ==> r.error == entropy.error
    ensures r.Ok? ==> |r.value| == EffectiveLength(length)
    ensures r.Ok? ==> forall i :: 0 <= i < |r.value| ==> r.value[i] in Charset && r.value[i] != '='
  {
    if entropy.Err? then Err(entropy.error)
    else
      var n := EffectiveLength(length);
      var bytes := entropy.value[..NumBytes(n)];
      var code := Base64.Encode(Base64.UrlSafe, bytes);
      Base64.EncodeShape(Base64.UrlSafe, bytes);
      assert Base64.DataLength(|bytes|) >= n;
      forall i | 0 <= i < n ensures code[i] in Charset {
        CharsetIsUrlAlphabet(code[i]);
      }
      Ok(code[..n])
  }

  /**
   * The code reads no random byte past NumBytes(length): two sources that
   * agree on those bytes give the same code.
   */
  lemma SecureCodeUsesOnlyNumBytes(length: int, x: seq<Base64.Byte>, y: seq<Base64.Byte>)
    requires |x| >= NumBytes(EffectiveLength(length)) && |y| >= NumBytes(EffectiveLength(length))
    requires x[..NumBytes(EffectiveLength(length))] == y[..NumBytes(EffectiveLength(length))]
    ensures GenerateSecureShortCode(length, Ok(x)) == GenerateSecureShortCode(length, Ok(y))
  {
  }

  /** The code is a prefix of the encoding, so decoding the whole encoding recovers the random bytes. */
  lemma SecureCodeIsEncodingPrefix(length: int, x: seq<Base64.Byte>)
    requires |x| >= NumBytes(EffectiveLength(length))
    ensures var bytes := x[..NumBytes(EffectiveLength(length))];
            var enc := Base64.Encode(Base64.UrlSafe, bytes);
            GenerateSecureShortCode(length, Ok(x)).value <= enc
            && Base64.Decode(Base64.UrlSafe, enc) == Some(bytes)
  {
    var n := EffectiveLength(length);
    var bytes := x[..NumBytes(n)];
    var enc := Base64.Encode(Base64.UrlSafe, bytes);
    Base64.EncodeShape(Base64.UrlSafe, bytes);
    assert GenerateSecureShortCode(length, Ok(x)).value == enc[..n];
    Base64.DecodeEncode(Base64.UrlSafe, bytes);
  }
}
