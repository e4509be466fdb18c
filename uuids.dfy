/**
 * Foundation's `UUID` and its text form. `UUID(uuidString:)` accepts exactly
 * the string representation of section 3 of RFC 4122: five groups of
 * hexadecimal digits of lengths 8, 4, 4, 4 and 12 separated by hyphens, either
 * letter case; `uuidString` writes that form with upper-case letters.
 */
module Uuids {

  import opened Options

  /** One hexadecimal digit's value. */
  type Nibble = n: int | 0 <= n < 16

  /** The 32 digits of a UUID, most significant first. */
  type UuidDigits = s: seq<Nibble> | |s| == 32 witness seq(32, _ => 0)

  datatype Uuid = Uuid(digits: UuidDigits)

  predicate IsHexDigit(c: char) {
    '0' <= c <= '9' || 'a' <= c <= 'f' || 'A' <= c <= 'F'
  }

  function HexValue(c: char): Nibble
    requires IsHexDigit(c)
  {
    if '0' <= c <= '9' then c as int - '0' as int
    else if 'a' <= c <= 'f' then c as int - 'a' as int + 10
    else c as int - 'A' as int + 10
  }

  /** The upper-case digit that `uuidString` writes for `n`; reading it back gives `n`. */
  function HexChar(n: Nibble): (c: char)
    ensures IsHexDigit(c) && HexValue(c) == n
    ensures !('a' <= c <= 'f')
  {
    if n < 10 then ('0' as int + n) as char else ('A' as int + n - 10) as char
  }

  /** The positions of the four hyphens in the 36-character form. */
  predicate IsHyphenPosition(i: int) {
    i == 8 || i == 13 || i == 18 || i == 23
  }

  /** The number of hyphens that precede text position `i`. */
  function HyphensBefore(i: int): nat {
    if i <= 8 then 0 else if i <= 13 then 1 else if i <= 18 then 2 else if i <= 23 then 3 else 4
  }

  /** The text position that holds digit `k`. */
  function TextPosition(k: int): int {
    if k < 8 then k else if k < 12 then k + 1 else if k < 16 then k + 2 else if k < 20 then k + 3 else k + 4
  }

  /** The grammar `8HEX "-" 4HEX "-" 4HEX "-" 4HEX "-" 12HEX`. */
  predicate IsUuidText(s: string) {
    |s| == 36 &&
    forall i :: 0 <= i < 36 ==> if IsHyphenPosition(i) then s[i] == '-' else IsHexDigit(s[i])
  }

  /** `UUID(uuidString: s)`: the UUID that `s` spells, or nil when `s` is not in the RFC 4122 form. */
  function ParseUuid(s: string): (r: Option<Uuid>)
    ensures r.Some? <==> IsUuidText(s)
    ensures r.Some? ==> forall k :: 0 <= k < 32 ==> r.value.digits[k] == HexValue(s[TextPosition(k)])
  {
    if IsUuidText(s) then
      var digits := seq(32, k requires 0 <= k < 32 => HexValue(s[TextPosition(k)]));
      Some(Uuid(digits))
    else
      None
  }

  /** `uuid.uuidString`. */
  function UuidString(u: Uuid): (s: string)
    ensures IsUuidText(s)
  {
    seq(36, i requires 0 <= i < 36 => if IsHyphenPosition(i) then '-' else HexChar(u.digits[i - HyphensBefore(i)]))
  }

  /** Reading back the text that `uuidString` writes gives the same UUID. */
  lemma ParseUuidString(u: Uuid)
    ensures ParseUuid(UuidString(u)) == Some(u)
  {
    var s := UuidString(u);
    var r := ParseUuid(s);
    forall k | 0 <= k < 32
      ensures r.value.digits[k] == u.digits[k]
    {
      assert !IsHyphenPosition(TextPosition(k)) && TextPosition(k) - HyphensBefore(TextPosition(k)) == k;
    }
    assert r.value.digits == u.digits;
  }

  /** Swift's `"\(n)"` for a non-negative `Int`: its decimal digits without leading zeros. */
  function NatText(n: nat): string
    decreases n
  {
    if n < 10 then [('0' as int + n) as char] else NatText(n / 10) + [('0' as int + n % 10) as char]
  }

  /** Swift's `"\(n)"` for any `Int`: a minus sign before the digits of a negative value. */
  function DecimalText(n: int): string {
    if n < 0 then "-" + NatText(-n) else NatText(n)
  }

  lemma {:induction false} NatTextIsDigits(n: nat)
    ensures |NatText(n)| > 0
    ensures forall i :: 0 <= i < |NatText(n)| ==> '0' <= NatText(n)[i] <= '9'
    decreases n
  {
    if n >= 10 {
      NatTextIsDigits(n / 10);
    }
  }

  /** No decimal integer text is a UUID: position 8 holds a digit, never a hyphen. */
  lemma DecimalTextIsNeverUuid(n: int)
    ensures !IsUuidText(DecimalText(n))
    ensures ParseUuid(DecimalText(n)) == None
  {
    var s := DecimalText(n);
    if |s| == 36 {
      if n < 0 {
        NatTextIsDigits(-n);
        assert s[8] == NatText(-n)[7];
      } else {
        NatTextIsDigits(n);
      }
      assert s[8] != '-';
      assert IsHyphenPosition(8);
    }
  }
}
