/** Document identifiers. A MongoDB ObjectId is twelve bytes; its string form
    (`_id.toString()`, and the `id` claim a signed token carries) is 24 lower-case
    hexadecimal digits, and the store casts a 24-digit hexadecimal string back to
    an ObjectId before looking a document up. The cast is what links a payment
    order's receipt to the transaction it was created for. */
module ObjectIds {
  import opened Values

  /** 16 to the power k. */
  function Pow16(k: nat): (r: nat)
    ensures r >= 1
    ensures k > 0 ==> r >= 16
  {
    if k == 0 then 1 else 16 * Pow16(k - 1)
  }

  /** Number of hexadecimal digits in the string form of an ObjectId. */
  const HexLength: nat := 24

  /** A twelve-byte identifier, read as a number below 16^24. */
  type ObjectId = n: nat | n < Pow16(24)

  /** The lower-case hexadecimal digit for a value below 16. */
  function HexDigit(d: nat): (c: char)
    requires d < 16
    ensures DigitValue(c) == Some(d)
    ensures !('A' <= c <= 'F')
  {
    if d < 10 then ('0' as int + d) as char else ('a' as int + d - 10) as char
  }

  /** The value of one hexadecimal digit, either case; None for any other character. */
  function DigitValue(c: char): (r: Option<nat>)
    ensures r.Some? ==> r.value < 16
    ensures r.Some? <==> ('0' <= c <= '9' || 'a' <= c <= 'f' || 'A' <= c <= 'F')
  {
    if '0' <= c <= '9' then Some(c as int - '0' as int)
    else if 'a' <= c <= 'f' then Some(c as int - 'a' as int + 10)
    else if 'A' <= c <= 'F' then Some(c as int - 'A' as int + 10)
    else None
  }

  /** `n` written as exactly `k` hexadecimal digits, most significant first. */
  function Encode(n: nat, k: nat): (s: string)
    requires n < Pow16(k)
    ensures |s| == k
  {
    if k == 0 then ""
    else
      assert n / 16 < Pow16(k - 1);
      Encode(n / 16, k - 1) + [HexDigit(n % 16)]
  }

  /** Every character of `s` is a hexadecimal digit. */
  predicate HexDigits(s: string)
  {
    forall i :: 0 <= i < |s| ==> DigitValue(s[i]).Some?
  }

  /** The number a string of hexadecimal digits denotes, most significant digit first. */
  function Value(s: string): (n: nat)
    requires HexDigits(s)
    ensures n < Pow16(|s|)
  {
    if |s| == 0 then 0
    else
      var prefix := s[..|s| - 1];
      assert forall i :: 0 <= i < |prefix| ==> prefix[i] == s[i];
      var hi, lo := Value(prefix), DigitValue(s[|s| - 1]).value;
      assert hi * 16 + lo < Pow16(|s|) by {
        assert hi <= Pow16(|s| - 1) - 1;
        assert hi * 16 <= Pow16(|s| - 1) * 16 - 16;
      }
      hi * 16 + lo
  }

  /** The number a string denotes; None when a character is not a hexadecimal digit. */
  function Decode(s: string): (r: Option<nat>)
    ensures r.Some? <==> HexDigits(s)
    ensures r.Some? ==> r.value < Pow16(|s|)
  {
    if HexDigits(s) then Some(Value(s)) else None
  }

  /** The string form of an ObjectId (`_id.toString()`). */
  function ToHex(id: ObjectId): (s: string)
    ensures |s| == HexLength
    ensures s != ""
  {
    Encode(id, HexLength)
  }

  /** Casting a string to an ObjectId, as a lookup by id does: exactly 24
      hexadecimal digits of either case; anything else is a cast error (None). */
  function Cast(s: string): (r: Option<ObjectId>)
    ensures r.Some? <==> |s| == HexLength && HexDigits(s)
  {
    if |s| != HexLength then None
    else match Decode(s)
      case Some(n) => Some(n)
      case None => None
  }

  /** The fixed-width form of `n` is the form of `hi` followed by the digit
      of `lo`, where `n` is `hi` sixteens and `lo` units. */
  lemma EncodeLast(n: nat, k: nat) returns (hi: nat, lo: nat)
    requires 0 < k && n < Pow16(k)
    ensures hi * 16 + lo == n && hi < Pow16(k - 1) && lo < 16
    ensures Encode(n, k) == Encode(hi, k - 1) + [HexDigit(lo)]
  {
    hi, lo := n / 16, n % 16;
  }

  /** Every character of a fixed-width form is a lower-case hexadecimal digit. */
  lemma {:induction false} EncodeDigits(n: nat, k: nat)
    requires n < Pow16(k)
    ensures HexDigits(Encode(n, k))
    ensures forall i :: 0 <= i < k ==> !('A' <= Encode(n, k)[i] <= 'F')
  {
    if k > 0 {
      var hi, lo := EncodeLast(n, k);
      EncodeDigits(hi, k - 1);
    }
  }

  /** Reading back the fixed-width form of `n` gives `n`. */
  lemma {:induction false} ValueEncode(n: nat, k: nat)
    requires n < Pow16(k)
    ensures HexDigits(Encode(n, k)) && Value(Encode(n, k)) == n
  {
    EncodeDigits(n, k);
    if k > 0 {
      var hi, lo := EncodeLast(n, k);
      ValueEncode(hi, k - 1);
      var s := Encode(n, k);
      assert s[..|s| - 1] == Encode(hi, k - 1);
    }
  }

  /** Decoding undoes encoding, for every width. */
  lemma DecodeEncode(n: nat, k: nat)
    requires n < Pow16(k)
    ensures Decode(Encode(n, k)) == Some(n)
  {
    ValueEncode(n, k);
  }

  /** The string form of an id is 24 lower-case hexadecimal digits, as
      `_id.toString()` produces. */
  lemma ToHexDigits(id: ObjectId)
    ensures HexDigits(ToHex(id))
    ensures forall i :: 0 <= i < |ToHex(id)| ==> !('A' <= ToHex(id)[i] <= 'F')
  {
    EncodeDigits(id, HexLength);
  }

  /** The receipt round trip: the string form of an id casts back to that id. */
  lemma CastToHex(id: ObjectId)
    ensures Cast(ToHex(id)) == Some(id)
  {
    DecodeEncode(id, HexLength);
  }

  /** Distinct ids have distinct string forms. */
  lemma ToHexInjective(a: ObjectId, b: ObjectId)
    ensures ToHex(a) == ToHex(b) <==> a == b
  {
    CastToHex(a);
    CastToHex(b);
  }
}
