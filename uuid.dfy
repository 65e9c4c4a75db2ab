/**
 * `genUuidV4($data)`: a version 4 UUID (RFC 4122, section 4.4) made from 16
 * caller-supplied bytes. The version field (section 4.1.3) is the high nibble
 * of byte 6, the variant (section 4.1.1) the top two bits of byte 8; the
 * result is `bin2hex` of the bytes in the 8-4-4-4-12 layout.
 */
module Uuid {

  /** A lowercase hexadecimal digit, as `bin2hex` emits. */
  predicate IsHexChar(c: char) {
    '0' <= c <= '9' || 'a' <= c <= 'f'
  }

  function HexDigit(n: nat): (c: char)
    requires n < 16
    ensures IsHexChar(c)
  {
    if n < 10 then ('0' as int + n) as char else ('a' as int + n - 10) as char
  }

  /** The value of a lowercase hexadecimal digit. */
  function HexValue(c: char): (n: nat)
    requires IsHexChar(c)
    ensures n < 16 && HexDigit(n) == c
  {
    if c <= '9' then c as int - '0' as int else c as int - 'a' as int + 10
  }

  lemma HexValueDigit(n: nat)
    requires n < 16
    ensures HexValue(HexDigit(n)) == n
  {
  }

  /** `$data[6] = chr(ord($data[6]) & 0x0f | 0x40)` and `$data[8] = chr(ord($data[8]) & 0x3f | 0x80)`. */
  function Stamp(data: seq<bv8>): (r: seq<bv8>)
    requires |data| == 16
    ensures |r| == 16
  {
    data[6 := (data[6] & 0x0f) | 0x40][8 := (data[8] & 0x3f) | 0x80]
  }

  /** The high and the low nibble of a byte. */
  function High(b: bv8): (n: nat)
    ensures n < 16
  {
    b as int / 16
  }

  function Low(b: bv8): (n: nat)
    ensures n < 16
  {
    b as int % 16
  }

  /** `bin2hex`: two lowercase digits per byte, high nibble first. */
  function BinToHex(data: seq<bv8>): (h: string)
    ensures |h| == 2 * |data|
  {
    if data == [] then "" else [HexDigit(High(data[0])), HexDigit(Low(data[0]))] + BinToHex(data[1..])
  }

  /** Digits `2i` and `2i+1` of the hex string are the nibbles of byte `i`. */
  lemma {:induction false} BinToHexIndex(data: seq<bv8>, i: nat)
    requires i < |data|
    ensures BinToHex(data)[2 * i] == HexDigit(High(data[i])) && BinToHex(data)[2 * i + 1] == HexDigit(Low(data[i]))
  {
    if i > 0 {
      BinToHexIndex(data[1..], i - 1);
      assert data[i] == data[1..][i - 1];
    }
  }

  lemma BinToHexAt(data: seq<bv8>)
    ensures forall i :: 0 <= i < |data| ==>
      BinToHex(data)[2 * i] == HexDigit(High(data[i])) && BinToHex(data)[2 * i + 1] == HexDigit(Low(data[i]))
  {
    forall i | 0 <= i < |data|
      ensures BinToHex(data)[2 * i] == HexDigit(High(data[i])) && BinToHex(data)[2 * i + 1] == HexDigit(Low(data[i]))
    {
      BinToHexIndex(data, i);
    }
  }

  /** `hex2bin`, the inverse of `BinToHex`. */
  function HexToBin(h: string): (data: seq<bv8>)
    requires |h| % 2 == 0
    requires forall i :: 0 <= i < |h| ==> IsHexChar(h[i])
    ensures |data| == |h| / 2
  {
    if h == [] then []
    else [(HexValue(h[0]) * 16 + HexValue(h[1])) as bv8] + HexToBin(h[2..])
  }

  lemma BinToHexIsHex(data: seq<bv8>)
    ensures forall i :: 0 <= i < |BinToHex(data)| ==> IsHexChar(BinToHex(data)[i])
  {
    var h := BinToHex(data);
    BinToHexAt(data);
    forall i | 0 <= i < |h| ensures IsHexChar(h[i]) {
      if i % 2 == 0 { assert h[2 * (i / 2)] == h[i]; } else { assert h[2 * (i / 2) + 1] == h[i]; }
    }
  }

  lemma ByteFromNibbles(b: bv8)
    ensures HexValue(HexDigit(High(b))) * 16 + HexValue(HexDigit(Low(b))) == b as int
  {
    HexValueDigit(High(b));
    HexValueDigit(Low(b));
  }

  lemma {:induction false} HexRoundTrip(data: seq<bv8>)
    ensures forall i :: 0 <= i < |BinToHex(data)| ==> IsHexChar(BinToHex(data)[i])
    ensures HexToBin(BinToHex(data)) == data
  {
    BinToHexIsHex(data);
    if data != [] {
      var h := BinToHex(data);
      HexRoundTrip(data[1..]);
      assert h[2..] == BinToHex(data[1..]);
      assert h[0] == HexDigit(High(data[0])) && h[1] == HexDigit(Low(data[0]));
      ByteFromNibbles(data[0]);
      var v := HexValue(h[0]) * 16 + HexValue(h[1]);
      assert v == data[0] as int;
      assert v as bv8 == data[0];
    }
  }

  /** `vsprintf('%s%s-%s-%s-%s-%s%s%s', str_split(bin2hex($data), 4))`. */
  function Layout(h: string): string
    requires |h| == 32
  {
    h[0..8] + "-" + h[8..12] + "-" + h[12..16] + "-" + h[16..20] + "-" + h[20..32]
  }

  /** Where the character at position `k` of the layout comes from in the hex string. */
  function HexIndex(k: nat): nat
    requires k < 36 && k != 8 && k != 13 && k != 18 && k != 23
  {
    if k < 8 then k else if k < 13 then k - 1 else if k < 18 then k - 2 else if k < 23 then k - 3 else k - 4
  }

  lemma LayoutAt(h: string)
    requires |h| == 32
    ensures |Layout(h)| == 36
    ensures Layout(h)[8] == '-' && Layout(h)[13] == '-' && Layout(h)[18] == '-' && Layout(h)[23] == '-'
    ensures forall k :: 0 <= k < 36 && k != 8 && k != 13 && k != 18 && k != 23 ==> Layout(h)[k] == h[HexIndex(k)]
  {
  }

  /** The UUID for the given 16 bytes. */
  function GenUuidV4(data: seq<bv8>): (r: string)
    requires |data| == 16
    ensures |r| == 36
    ensures r[8] == '-' && r[13] == '-' && r[18] == '-' && r[23] == '-'
    ensures forall k :: 0 <= k < 36 && k != 8 && k != 13 && k != 18 && k != 23 ==> IsHexChar(r[k])
  {
    var h := BinToHex(Stamp(data));
    LayoutAt(h);
    HexRoundTrip(Stamp(data));
    Layout(h)
  }

  /** Drops the four dashes of a UUID and decodes the 32 digits. */
  function ParseUuid(s: string): (data: seq<bv8>)
    requires |s| == 36
    requires forall k :: 0 <= k < 36 && k != 8 && k != 13 && k != 18 && k != 23 ==> IsHexChar(s[k])
  {
    var h := s[0..8] + s[9..13] + s[14..18] + s[19..23] + s[24..36];
    assert forall i :: 0 <= i < 32 ==> h[i] == s[if i < 8 then i else if i < 12 then i + 1 else if i < 16 then i + 2 else if i < 20 then i + 3 else i + 4];
    HexToBin(h)
  }

  /** Character 14, the version digit, is always '4'. */
  lemma VersionDigit(data: seq<bv8>)
    requires |data| == 16
    ensures GenUuidV4(data)[14] == '4'
  {
    var s := Stamp(data);
    LayoutAt(BinToHex(s));
    BinToHexAt(s);
    assert GenUuidV4(data)[14] == BinToHex(s)[12];
    assert High(s[6]) == 4;
  }

  /** Character 19 carries the variant bits 10: it is one of 8, 9, a, b. */
  lemma VariantDigit(data: seq<bv8>)
    requires |data| == 16
    ensures GenUuidV4(data)[19] in "89ab"
  {
    var s := Stamp(data);
    LayoutAt(BinToHex(s));
    BinToHexAt(s);
    assert GenUuidV4(data)[19] == BinToHex(s)[16];
    var n := High(s[8]);
    assert n == 8 || n == 9 || n == 10 || n == 11;
    assert "89ab"[n - 8] == HexDigit(n);
  }

  /** Parsing the UUID gives back the bytes with only the version and variant bits forced. */
  lemma {:induction false} UuidRoundTrip(data: seq<bv8>)
    requires |data| == 16
    ensures ParseUuid(GenUuidV4(data)) == Stamp(data)
  {
    var h := BinToHex(Stamp(data));
    var r := GenUuidV4(data);
    LayoutAt(h);
    assert r[0..8] + r[9..13] + r[14..18] + r[19..23] + r[24..36] == h;
    HexRoundTrip(Stamp(data));
  }

  /** Every input bit but the high nibble of byte 6 and the top two bits of byte 8 survives. */
  lemma StampKeepsBits(data: seq<bv8>)
    requires |data| == 16
    ensures forall i :: 0 <= i < 16 && i != 6 && i != 8 ==> Stamp(data)[i] == data[i]
    ensures Stamp(data)[6] & 0x0f == data[6] & 0x0f && Stamp(data)[6] & 0xf0 == 0x40
    ensures Stamp(data)[8] & 0x3f == data[8] & 0x3f && Stamp(data)[8] & 0xc0 == 0x80
  {
  }

  /** The bits that survive the stamp, compared between two inputs. */
  predicate SameFreeBits(a: seq<bv8>, b: seq<bv8>)
    requires |a| == 16 && |b| == 16
  {
    && (forall i :: 0 <= i < 16 && i != 6 && i != 8 ==> a[i] == b[i])
    && a[6] & 0x0f == b[6] & 0x0f
    && a[8] & 0x3f == b[8] & 0x3f
  }

  lemma StampDeterminedByFreeBits(a: seq<bv8>, b: seq<bv8>)
    requires |a| == 16 && |b| == 16
    ensures Stamp(a) == Stamp(b) <==> SameFreeBits(a, b)
  {
    StampKeepsBits(a);
    StampKeepsBits(b);
    if SameFreeBits(a, b) {
      assert Stamp(a)[6] == (a[6] & 0x0f) | 0x40 && Stamp(b)[6] == (b[6] & 0x0f) | 0x40;
      assert Stamp(a)[8] == (a[8] & 0x3f) | 0x80 && Stamp(b)[8] == (b[8] & 0x3f) | 0x80;
      forall i | 0 <= i < 16
        ensures Stamp(a)[i] == Stamp(b)[i]
      {
        if i != 6 && i != 8 {
          assert a[i] == b[i];
        }
      }
    }
  }

  /** Two inputs give the same UUID exactly when they agree on every bit that is not forced. */
  lemma UuidDeterminedByData(a: seq<bv8>, b: seq<bv8>)
    requires |a| == 16 && |b| == 16
    ensures GenUuidV4(a) == GenUuidV4(b) <==> SameFreeBits(a, b)
  {
    UuidRoundTrip(a);
    UuidRoundTrip(b);
    StampDeterminedByFreeBits(a, b);
  }
}
