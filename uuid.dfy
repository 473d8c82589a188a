/**
 * `java.util.UUID.randomUUID().toString()`: sixteen random bytes, with the
 * version (4) and variant (IETF) bits of RFC 4122 section 4.4 set, written
 * in the 8-4-4-4-12 form of RFC 4122 section 3 with lower-case hex digits.
 * The random source is a parameter.
 */
module Uuid {
  import opened Wrappers

  newtype Byte = b: int | 0 <= b < 256

  const HexDigits: string := "0123456789abcdef"

  /** The value of a lower-case hex digit. */
  function DigitValue(c: char): Option<nat> {
    if '0' <= c <= '9' then Some(c as int - '0' as int)
    else if 'a' <= c <= 'f' then Some(c as int - 'a' as int + 10)
    else None
  }

  lemma DigitValueOfHexDigit(d: nat)
    requires d < 16
    ensures DigitValue(HexDigits[d]) == Some(d)
  {
  }

  /** Two hex digits per byte, high nibble first. */
  function Hex(bytes: seq<Byte>): (s: string)
    ensures |s| == 2 * |bytes|
    ensures forall i :: 0 <= i < |s| ==> s[i] in HexDigits
    decreases |bytes|
  {
    if bytes == [] then []
    else
      var b := bytes[0] as int;
      [HexDigits[b / 16], HexDigits[b % 16]] + Hex(bytes[1..])
  }

  /** Reads back an even-length run of hex digits. */
  function ParseHex(s: string): Option<seq<Byte>>
    decreases |s|
  {
    if s == [] then Some([])
    else if |s| == 1 then None
    else
      match (DigitValue(s[0]), DigitValue(s[1]), ParseHex(s[2..]))
      case (Some(hi), Some(lo), Some(rest)) =>
        if hi * 16 + lo < 256 then Some([(hi * 16 + lo) as Byte] + rest) else None
      case _ => None
  }

  /** The two digits of a byte read back as its high and low nibble. */
  lemma ByteDigits(b: Byte)
    ensures DigitValue(HexDigits[b as int / 16]) == Some(b as int / 16)
    ensures DigitValue(HexDigits[b as int % 16]) == Some(b as int % 16)
    ensures (b as int / 16) * 16 + b as int % 16 == b as int
  {
    DigitValueOfHexDigit(b as int / 16);
    DigitValueOfHexDigit(b as int % 16);
  }

  /** Reading two digits in front of a run reads their byte in front of its bytes. */
  lemma ParseHexCons(c0: char, c1: char, rest: string, hi: nat, lo: nat, bytes: seq<Byte>)
    requires DigitValue(c0) == Some(hi) && DigitValue(c1) == Some(lo) && hi * 16 + lo < 256
    requires ParseHex(rest) == Some(bytes)
    ensures ParseHex([c0, c1] + rest) == Some([(hi * 16 + lo) as Byte] + bytes)
  {
    var s := [c0, c1] + rest;
    assert s[0] == c0 && s[1] == c1 && s[2..] == rest;
  }

  lemma ParseHexFront(b: Byte, rest: string, bytes: seq<Byte>)
    requires ParseHex(rest) == Some(bytes)
    ensures ParseHex([HexDigits[b as int / 16], HexDigits[b as int % 16]] + rest) == Some([b] + bytes)
  {
    var hi, lo := b as int / 16, b as int % 16;
    ByteDigits(b);
    ParseHexCons(HexDigits[hi], HexDigits[lo], rest, hi, lo, bytes);
  }

  lemma {:induction false} ParseHexOfHex(bytes: seq<Byte>)
    ensures ParseHex(Hex(bytes)) == Some(bytes)
    decreases |bytes|
  {
    if bytes != [] {
      ParseHexOfHex(bytes[1..]);
      ParseHexFront(bytes[0], Hex(bytes[1..]), bytes[1..]);
      assert [bytes[0]] + bytes[1..] == bytes;
    }
  }

  /** Set the version nibble to 4 and the variant bits to 10, as randomUUID does. */
  function MarkVersion4(random: seq<Byte>): (bytes: seq<Byte>)
    requires |random| == 16
    ensures |bytes| == 16
    ensures bytes[6] as int / 16 == 4 && bytes[6] as int % 16 == random[6] as int % 16
    ensures bytes[8] as int / 64 == 2 && bytes[8] as int % 64 == random[8] as int % 64
    ensures forall i :: 0 <= i < 16 && i != 6 && i != 8 ==> bytes[i] == random[i]
  {
    random[6 := (random[6] as int % 16 + 0x40) as Byte][8 := (random[8] as int % 64 + 0x80) as Byte]
  }

  predicate IsHyphenPosition(i: int) {
    i == 8 || i == 13 || i == 18 || i == 23
  }

  predicate AllHex(t: string) {
    forall i :: 0 <= i < |t| ==> t[i] in HexDigits
  }

  /** Five hex groups joined by hyphens: hyphens at 8, 13, 18 and 23, hex digits elsewhere. */
  lemma Hyphenated(a: string, b: string, c: string, d: string, e: string)
    requires |a| == 8 && |b| == 4 && |c| == 4 && |d| == 4 && |e| == 12
    requires AllHex(a) && AllHex(b) && AllHex(c) && AllHex(d) && AllHex(e)
    ensures var s := a + "-" + b + "-" + c + "-" + d + "-" + e;
            && |s| == 36
            && (forall i :: 0 <= i < 36 ==> (s[i] == '-' <==> IsHyphenPosition(i)))
            && (forall i :: 0 <= i < 36 && !IsHyphenPosition(i) ==> s[i] in HexDigits)
  {
    assert '-' !in HexDigits;
    var s := a + "-" + b + "-" + c + "-" + d + "-" + e;
    forall i | 0 <= i < 36
      ensures s[i] == '-' <==> IsHyphenPosition(i)
      ensures !IsHyphenPosition(i) ==> s[i] in HexDigits
    {
      if i < 8 {
        assert s[i] == a[i];
      } else if 8 < i < 13 {
        assert s[i] == b[i - 9];
      } else if 13 < i < 18 {
        assert s[i] == c[i - 14];
      } else if 18 < i < 23 {
        assert s[i] == d[i - 19];
      } else if 23 < i {
        assert s[i] == e[i - 24];
      }
    }
  }

  /** `UUID.toString()` of the UUID whose bytes, most significant first, are `bytes`. */
  function ToString(bytes: seq<Byte>): (s: string)
    requires |bytes| == 16
    ensures |s| == 36
    ensures forall i :: 0 <= i < 36 ==> (s[i] == '-' <==> IsHyphenPosition(i))
    ensures forall i :: 0 <= i < 36 && !IsHyphenPosition(i) ==> s[i] in HexDigits
  {
    var a, b, c, d, e := Hex(bytes[..4]), Hex(bytes[4..6]), Hex(bytes[6..8]), Hex(bytes[8..10]), Hex(bytes[10..]);
    Hyphenated(a, b, c, d, e);
    a + "-" + b + "-" + c + "-" + d + "-" + e
  }

  /** The bytes of a UUID string, read back from its five groups. */
  function Parse(s: string): Option<seq<Byte>>
    requires |s| == 36
  {
    match (ParseHex(s[..8]), ParseHex(s[9..13]), ParseHex(s[14..18]), ParseHex(s[19..23]), ParseHex(s[24..]))
    case (Some(a), Some(b), Some(c), Some(d), Some(e)) => Some(a + b + c + d + e)
    case _ => None
  }

  /** The five groups of a hyphenated string sit at fixed offsets. */
  lemma GroupsAt(a: string, b: string, c: string, d: string, e: string)
    requires |a| == 8 && |b| == 4 && |c| == 4 && |d| == 4 && |e| == 12
    ensures var s := a + "-" + b + "-" + c + "-" + d + "-" + e;
            |s| == 36 && s[..8] == a && s[9..13] == b && s[14..18] == c && s[19..23] == d && s[24..] == e
  {
  }

  /** Parsing five joined groups reads each group's bytes, in order. */
  lemma ParseJoined(a: string, b: string, c: string, d: string, e: string,
                    ba: seq<Byte>, bb: seq<Byte>, bc: seq<Byte>, bd: seq<Byte>, be: seq<Byte>)
    requires |a| == 8 && |b| == 4 && |c| == 4 && |d| == 4 && |e| == 12
    requires ParseHex(a) == Some(ba) && ParseHex(b) == Some(bb) && ParseHex(c) == Some(bc)
    requires ParseHex(d) == Some(bd) && ParseHex(e) == Some(be)
    ensures Parse(a + "-" + b + "-" + c + "-" + d + "-" + e) == Some(ba + bb + bc + bd + be)
  {
    GroupsAt(a, b, c, d, e);
  }

  /** The bytes, cut where the groups of the string form are cut. */
  lemma GroupBytes(bytes: seq<Byte>)
    requires |bytes| == 16
    ensures bytes[..4] + bytes[4..6] + bytes[6..8] + bytes[8..10] + bytes[10..] == bytes
  {
    assert bytes[..4] + bytes[4..6] == bytes[..6];
    assert bytes[..6] + bytes[6..8] == bytes[..8];
    assert bytes[..8] + bytes[8..10] == bytes[..10];
    assert bytes[..10] + bytes[10..] == bytes;
  }

  /** The string form loses nothing: two different UUIDs print differently. */
  lemma ParseToString(bytes: seq<Byte>)
    requires |bytes| == 16
    ensures Parse(ToString(bytes)) == Some(bytes)
  {
    ParseHexOfHex(bytes[..4]);
    ParseHexOfHex(bytes[4..6]);
    ParseHexOfHex(bytes[6..8]);
    ParseHexOfHex(bytes[8..10]);
    ParseHexOfHex(bytes[10..]);
    ParseJoined(Hex(bytes[..4]), Hex(bytes[4..6]), Hex(bytes[6..8]), Hex(bytes[8..10]), Hex(bytes[10..]),
                bytes[..4], bytes[4..6], bytes[6..8], bytes[8..10], bytes[10..]);
    GroupBytes(bytes);
  }

  /** The first digit of a byte's pair is its high nibble. */
  lemma HexFirst(bytes: seq<Byte>)
    requires |bytes| > 0
    ensures Hex(bytes)[0] == HexDigits[bytes[0] as int / 16]
  {
  }

  /** Characters 14 and 19 of the string are the high nibbles of bytes 6 and 8. */
  lemma VersionDigits(bytes: seq<Byte>)
    requires |bytes| == 16
    ensures ToString(bytes)[14] == HexDigits[bytes[6] as int / 16]
    ensures ToString(bytes)[19] == HexDigits[bytes[8] as int / 16]
  {
    GroupsAt(Hex(bytes[..4]), Hex(bytes[4..6]), Hex(bytes[6..8]), Hex(bytes[8..10]), Hex(bytes[10..]));
    HexFirst(bytes[6..8]);
    HexFirst(bytes[8..10]);
  }

  /** `UUID.randomUUID().toString()` for the given sixteen random bytes. */
  function RandomUuidString(random: seq<Byte>): (s: string)
    requires |random| == 16
    ensures |s| == 36
    ensures s[14] == '4'
    ensures s[19] in "89ab"
    ensures forall i :: 0 <= i < |s| ==> s[i] == '-' || s[i] in HexDigits
  {
    var bytes := MarkVersion4(random);
    VersionDigits(bytes);
    var b8 := bytes[8] as int;
    assert 128 <= b8 < 192;
    assert 8 <= b8 / 16 < 12;
    ToString(bytes)
  }
}
