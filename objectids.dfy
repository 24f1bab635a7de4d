/**
 * Document identifiers. A MongoDB ObjectId is twelve bytes, here read as one
 * 96-bit number; its string form, used as the `id` of every JSON document, is
 * 24 lower-case hexadecimal digits, most significant first.
 */
module ObjectIds {
  import opened Wrappers

  /** 16 to the power `n`. */
  function Pow16(n: nat): (p: nat)
    ensures p > 0
  {
    if n == 0 then 1 else 16 * Pow16(n - 1)
  }

  const IdDigits := 24

  /** 2 to the power 96, the number of distinct ObjectIds. */
  const IdBound := 0x1_0000_0000_0000_0000_0000_0000

  type ObjectId = x: int | 0 <= x < IdBound

  lemma IdBoundDigits()
    ensures Pow16(IdDigits) == IdBound
  {
    Pow16Add(8, 8);
    Pow16Add(8, 16);
    assert Pow16(8) == 0x1_0000_0000;
  }

  lemma {:induction false} Pow16Add(a: nat, b: nat)
    ensures Pow16(a + b) == Pow16(a) * Pow16(b)
  {
    if a > 0 {
      Pow16Add(a - 1, b);
    }
  }

  /** The lower-case hexadecimal digit of a value below 16. */
  function HexDigit(n: int): (c: char)
    requires 0 <= n < 16
  {
    if n < 10 then ('0' as int + n) as char else ('a' as int + n - 10) as char
  }

  /** The value of a lower-case hexadecimal digit, or None for any other character. */
  function DigitValue(c: char): (r: Option<int>)
    ensures r.Some? ==> 0 <= r.value < 16
  {
    if '0' <= c <= '9' then Some(c as int - '0' as int)
    else if 'a' <= c <= 'f' then Some(c as int - 'a' as int + 10)
    else None
  }

  lemma DigitRoundTrip(d: int)
    requires 0 <= d < 16
    ensures DigitValue(HexDigit(d)) == Some(d)
  {
  }

  /** The last `width` hexadecimal digits of `n`, most significant first. */
  function HexEncode(n: nat, width: nat): (s: string)
    ensures |s| == width
  {
    if width == 0 then "" else HexEncode(n / 16, width - 1) + [HexDigit(n % 16)]
  }

  function HexDecode(s: string): Option<nat>
  {
    if s == "" then Some(0)
    else match (HexDecode(s[..|s| - 1]), DigitValue(s[|s| - 1]))
      case (Some(high), Some(d)) => Some(high * 16 + d)
      case _ => None
  }

  lemma {:induction false} DecodeEncode(n: nat, width: nat)
    requires n < Pow16(width)
    ensures HexDecode(HexEncode(n, width)) == Some(n)
  {
    if width > 0 {
      var s := HexEncode(n, width);
      assert s[..width - 1] == HexEncode(n / 16, width - 1);
      DigitRoundTrip(n % 16);
      assert n / 16 < Pow16(width - 1);
      DecodeEncode(n / 16, width - 1);
      assert n / 16 * 16 + n % 16 == n;
    }
  }

  /** The string form of an ObjectId (`_id.toString()`). */
  function IdString(id: ObjectId): (s: string)
    ensures |s| == IdDigits
    ensures ParseObjectId(s) == Some(id)
  {
    IdBoundDigits();
    DecodeEncode(id, IdDigits);
    HexEncode(id, IdDigits)
  }

  /** The inverse of IdString: 24 lower-case hexadecimal digits back to an ObjectId. */
  function ParseObjectId(s: string): Option<ObjectId>
  {
    if |s| != IdDigits then None
    else match HexDecode(s)
      case Some(n) => if n < IdBound then Some(n) else None
      case None => None
  }

  /** Distinct documents have distinct string ids. */
  lemma IdStringInjective(a: ObjectId, b: ObjectId)
    ensures IdString(a) == IdString(b) <==> a == b
  {
  }
}
