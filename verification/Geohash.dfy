/** Geohashes, deps/lib/geohash/Geohash.java: bisection of both coordinates, interleaved and written in base 32. */
module Geohash {
  import opened Options
  import opened Bisection
  import opened Base32

  const DIGITS: string := "0123456789bcdefghjkmnpqrstuvwxyz"

  /** Bits per coordinate. */
  const NUMBITS: nat := 30

  datatype Point = Point(lat: real, lon: real)

  // ---------------------------------------------------------------- what is computed

  function Bit(b: bool): char {
    if b then '1' else '0'
  }

  function Interleave(lonbits: seq<bool>, latbits: seq<bool>): (s: string)
    requires |lonbits| == |latbits|
    ensures |s| == 2 * |lonbits| && IsBinary(s)
    ensures forall i :: 0 <= i < |lonbits| ==> s[2 * i] == Bit(lonbits[i]) && s[2 * i + 1] == Bit(latbits[i])
  {
    if lonbits == [] then ""
    else
      var n := |lonbits| - 1;
      Interleave(lonbits[..n], latbits[..n]) + [Bit(lonbits[n]), Bit(latbits[n])]
  }

  /** Every second character from `start` on as a bit, clear beyond the end of the string. */
  function Deinterleave(s: string, start: nat, n: nat): (bits: seq<bool>)
    ensures |bits| == n
    ensures forall i :: 0 <= i < n ==> bits[i] == (start + 2 * i < |s| && s[start + 2 * i] == '1')
  {
    if n == 0 then []
    else
      Deinterleave(s, start, n - 1) + [start + 2 * (n - 1) < |s| && s[start + 2 * (n - 1)] == '1']
  }

  function LatBits(lat: real): seq<bool> {
    Bisect(lat, -90.0, 90.0, NUMBITS)
  }

  function LonBits(lon: real): seq<bool> {
    Bisect(lon, -180.0, 180.0, NUMBITS)
  }

  function BitString(p: Point): string {
    Interleave(LonBits(p.lon), LatBits(p.lat))
  }

  function Hash(p: Point): string {
    Numeral(DIGITS, Parse(BitString(p)))
  }

  /** A decoded coordinate: the lower corner of the cell, but 0 when no bit is set. */
  function Decoded(bits: seq<bool>, floor: real, ceiling: real): real {
    if AnySet(bits) then Corner(bits, floor, ceiling) else 0.0
  }

  function DecodedPoint(bits: string): Point {
    Point(Decoded(Deinterleave(bits, 1, NUMBITS), -90.0, 90.0),
          Decoded(Deinterleave(bits, 0, NUMBITS), -180.0, 180.0))
  }

  // ---------------------------------------------------------------- the methods

  method GetBits(x: real, low: real, high: real, numbits: nat) returns (buffer: seq<bool>)
    ensures buffer == Bisect(x, low, high, numbits)
  {
    var floor, ceiling := low, high;
    buffer := [];
    ghost var all := Bisect(x, low, high, numbits);
    for i := 0 to numbits
      invariant buffer == all[..i] && Bisect(x, floor, ceiling, numbits - i) == all[i..]
    {
      BisectOnce(x, floor, ceiling, numbits - i);
      assert all[i..][0] == all[i] && all[i..][1..] == all[i + 1..];
      var mid := (floor + ceiling) / 2.0;
      if x >= mid {
        buffer := buffer + [true];
        floor := mid;
      } else {
        buffer := buffer + [false];
        ceiling := mid;
      }
    }
  }

  lemma {:induction false} BisectOnce(x: real, floor: real, ceiling: real, n: nat)
    requires n > 0
    ensures var mid, bits := (floor + ceiling) / 2.0, Bisect(x, floor, ceiling, n);
            bits[0] == (x >= mid) &&
            bits[1..] == if x >= mid then Bisect(x, mid, ceiling, n - 1) else Bisect(x, floor, mid, n - 1)
  {
  }

  /** The loop of `encode` that alternates the bits of the two coordinates. */
  method Alternate(lonbits: seq<bool>, latbits: seq<bool>) returns (buffer: string)
    requires |lonbits| == |latbits|
    ensures buffer == Interleave(lonbits, latbits)
  {
    buffer := "";
    for i := 0 to |lonbits|
      invariant buffer == Interleave(lonbits[..i], latbits[..i])
    {
      assert lonbits[..i + 1][..i] == lonbits[..i] && latbits[..i + 1][..i] == latbits[..i];
      buffer := buffer + [Bit(lonbits[i])];
      buffer := buffer + [Bit(latbits[i])];
    }
    assert lonbits[..|lonbits|] == lonbits && latbits[..|latbits|] == latbits;
  }

  method Encode(lat: real, lon: real) returns (hash: string)
    ensures hash == Hash(Point(lat, lon))
  {
    var latbits := GetBits(lat, -90.0, 90.0, NUMBITS);
    var lonbits := GetBits(lon, -180.0, 180.0, NUMBITS);
    var buffer := Alternate(lonbits, latbits);
    ParseBound(buffer);
    Pow2Sixty();
    hash := ToBase32(DIGITS, Parse(buffer));
  }

  /** The decoding of one coordinate stops after the highest bit that is set. */
  method DecodeBits(bs: seq<bool>, low: real, high: real) returns (mid: real)
    ensures mid == Decoded(bs, low, high)
  {
    var floor, ceiling := low, high;
    mid := 0.0;
    var n := LengthOf(bs);
    for i := 0 to n
      invariant Corner(bs[i..n], floor, ceiling) == Corner(bs[..n], low, high)
      invariant if i == 0 then mid == 0.0 else bs[i - 1] ==> mid == floor
    {
      assert bs[i..n][1..] == bs[i + 1..n];
      mid := (floor + ceiling) / 2.0;
      if bs[i] {
        floor := mid;
      } else {
        ceiling := mid;
      }
    }
    CornerOfPrefix(bs, low, high, n);
  }

  /** The characters of a geohash: decimal digits and small letters without "a", "i", "l" and "o". */
  predicate Readable(c: char) {
    '0' <= c <= '9' || ('b' <= c <= 'z' && c != 'i' && c != 'l' && c != 'o')
  }

  /** The character that stands for a value of five bits: ten digits and then the letters, four of them skipped. */
  function Symbol(v: nat): char
    requires v < 32
  {
    if v < 10 then '0' + v as char
    else if v < 17 then 'b' + (v - 10) as char
    else if v < 19 then 'j' + (v - 17) as char
    else if v < 21 then 'm' + (v - 19) as char
    else 'p' + (v - 21) as char
  }

  lemma {:induction false} DigitIs(v: nat)
    requires v < 32
    ensures DIGITS[v] == Symbol(v) && ValueOf(DIGITS, Symbol(v)) == v
  {
    DigitsAlphabet();
    ValueOfDigit(DIGITS, v);
  }

  lemma {:induction false} ReadableIsSymbol(c: char) returns (v: nat)
    requires Readable(c)
    ensures v < 32 && Symbol(v) == c
  {
    var n := c as int;
    v := if c <= '9' then n - 48 else if c < 'i' then n - 88 else if c < 'l' then n - 89
         else if c < 'o' then n - 90 else n - 91;
  }

  lemma {:induction false} SymbolIsReadable(v: nat)
    requires v < 32
    ensures Readable(Symbol(v))
    ensures forall w: nat :: v < w < 32 ==> Symbol(v) < Symbol(w)
  {
  }

  /** The readable characters are those that have a value. */
  lemma {:induction false} ReadableIff(c: char)
    ensures ValueOf(DIGITS, c) >= 0 <==> Readable(c)
    ensures Readable(c) ==> ValueOf(DIGITS, c) < 32 && Symbol(ValueOf(DIGITS, c)) == c
  {
    if Readable(c) {
      var v := ReadableIsSymbol(c);
      DigitIs(v);
    } else {
      ValueFound(DIGITS, c);
      var i := ValueOf(DIGITS, c);
      if i >= 0 {
        DigitIs(i);
        SymbolIsReadable(i);
      }
    }
  }

  /** Values ascend with the characters. */
  lemma {:induction false} ReadableAscend(c: char, d: char)
    requires Readable(c) && Readable(d)
    ensures ValueOf(DIGITS, c) < ValueOf(DIGITS, d) <==> c < d
  {
    var v := ReadableIsSymbol(c);
    var w := ReadableIsSymbol(d);
    DigitIs(v);
    DigitIs(w);
    SymbolIsReadable(v);
    SymbolIsReadable(w);
  }

  /** `None` stands for the exception on a character that is not a digit. */
  method Decode(geohash: string) returns (p: Option<Point>)
    ensures p.Some? <==> forall i :: 0 <= i < |geohash| ==> Readable(geohash[i])
    ensures IsNumeral(DIGITS, geohash) <==> p.Some?
    ensures p.Some? ==> p.value == DecodedPoint(Expand(DIGITS, geohash))
  {
    var digits := DigitsOf(geohash);
    forall i | 0 <= i < |geohash| ensures ValueOf(DIGITS, geohash[i]) >= 0 <==> Readable(geohash[i]) {
      ReadableIff(geohash[i]);
    }
    if digits == None {
      return None;
    }
    var lonset := SetOf(digits.value, 0);
    var latset := SetOf(digits.value, 1);
    var lon := DecodeBits(lonset, -180.0, 180.0);
    var lat := DecodeBits(latset, -90.0, 90.0);
    return Some(Point(lat, lon));
  }

  /** The loop that puts the bits of all digits into a buffer. */
  method DigitsOf(geohash: string) returns (bits: Option<string>)
    ensures bits == if IsNumeral(DIGITS, geohash) then Some(Expand(DIGITS, geohash)) else None
  {
    var buffer := "";
    for i := 0 to |geohash|
      invariant IsNumeral(DIGITS, geohash[..i]) && buffer == Expand(DIGITS, geohash[..i])
    {
      var value := ValueOf(DIGITS, geohash[i]);
      if value < 0 {
        return None;
      }
      ExpandNext(DIGITS, geohash, i);
      buffer := buffer + ToBinary(value + 32)[1..];
    }
    assert geohash[..|geohash|] == geohash;
    return Some(buffer);
  }

  /** The loop that picks the even or the odd characters of the buffer. */
  method SetOf(buffer: string, start: nat) returns (bits: seq<bool>)
    ensures bits == Deinterleave(buffer, start, NUMBITS)
  {
    bits := [];
    var i := start;
    while i < start + 2 * NUMBITS
      invariant i == start + 2 * |bits| && |bits| <= NUMBITS
      invariant bits == Deinterleave(buffer, start, |bits|)
      decreases start + 2 * NUMBITS - i
    {
      var isSet := false;
      if i < |buffer| {
        isSet := buffer[i] == '1';
      }
      bits := bits + [isSet];
      i := i + 2;
    }
  }

  lemma {:induction false} Pow2Sixty()
    ensures Pow2(60) == 0x1000_0000_0000_0000 && Pow2(55) == 0x80_0000_0000_0000 && Pow32(11) == 0x80_0000_0000_0000
  {
    assert Pow2(8) == 0x100;
    assert Pow2(16) == 0x1_0000;
    assert Pow2(24) == 0x100_0000;
    assert Pow2(32) == 0x1_0000_0000;
    assert Pow2(40) == 0x100_0000_0000;
    assert Pow2(48) == 0x1_0000_0000_0000;
    assert Pow2(55) == 0x80_0000_0000_0000;
    assert Pow32(4) == 0x10_0000;
    assert Pow32(8) == 0x100_0000_0000;
  }

  // ---------------------------------------------------------------- the round trip

  /** The lower corner of the cell of a point. */
  function CellCorner(p: Point): Point {
    Point(Corner(LatBits(p.lat), -90.0, 90.0), Corner(LonBits(p.lon), -180.0, 180.0))
  }

  lemma {:induction false} AscendingDistinct(s: string, i: nat, j: nat)
    requires i < j < |s| && forall k :: 0 < k < |s| ==> s[k - 1] < s[k]
    ensures s[i] < s[j]
  {
    if i < j - 1 { AscendingDistinct(s, i, j - 1); }
  }

  lemma {:induction false} DigitsAlphabet()
    ensures Alphabet(DIGITS)
  {
    var s := DIGITS;
    assert forall k :: 0 < k < |s| ==> s[k - 1] < s[k];
    forall i, j | 0 <= i < j < |s| ensures s[i] != s[j] { AscendingDistinct(s, i, j); }
  }

  lemma {:induction false} DeinterleaveInterleaved(lonbits: seq<bool>, latbits: seq<bool>)
    requires |lonbits| == |latbits|
    ensures Deinterleave(Interleave(lonbits, latbits), 0, |lonbits|) == lonbits
    ensures Deinterleave(Interleave(lonbits, latbits), 1, |latbits|) == latbits
  {
  }

  /** Two strings of full length that deinterleave to the same bits are the same. */
  lemma {:induction false} DeinterleaveInjective(s: string, t: string, n: nat)
    requires IsBinary(s) && IsBinary(t) && |s| == |t| == 2 * n
    requires Deinterleave(s, 0, n) == Deinterleave(t, 0, n) && Deinterleave(s, 1, n) == Deinterleave(t, 1, n)
    ensures s == t
  {
    forall i | 0 <= i < |s| ensures s[i] == t[i] {
      var k := i / 2;
      assert Deinterleave(s, i % 2, n)[k] == Deinterleave(t, i % 2, n)[k];
      assert i % 2 + 2 * k == i;
    }
  }

  /** What decoding sees of a hash: its digits' bits, which have the value of the original bits. */
  lemma {:induction false} HashExpands(p: Point)
    ensures IsNumeral(DIGITS, Hash(p)) && Parse(Expand(DIGITS, Hash(p))) == Parse(BitString(p))
    ensures 1 <= |Hash(p)| <= 12
  {
    DigitsAlphabet();
    NumeralExpands(DIGITS, Parse(BitString(p)));
    ParseBound(BitString(p));
    Pow2Sixty();
    assert Pow32(12) == 32 * Pow32(11);
    NumeralLength(DIGITS, Parse(BitString(p)), 12);
  }

  /** A hash of full length decodes to the bits that were encoded. */
  lemma {:induction false} FullHash(p: Point)
    requires |Hash(p)| == 12
    ensures IsNumeral(DIGITS, Hash(p)) && Expand(DIGITS, Hash(p)) == BitString(p)
    ensures DecodedPoint(BitString(p)) ==
            Point(Decoded(LatBits(p.lat), -90.0, 90.0), Decoded(LonBits(p.lon), -180.0, 180.0))
  {
    HashExpands(p);
    ParseInjective(Expand(DIGITS, Hash(p)), BitString(p));
    DeinterleaveInterleaved(LonBits(p.lon), LatBits(p.lat));
  }

  lemma {:induction false} PaddedDiffers(e: string, k: nat)
    requires Parse(e) > 0 && k > 0
    ensures Parse(e + Zeros(k)) != Parse(e)
  {
    ZerosParse(k);
    ParseConcat(e, Zeros(k));
    Pow2Large(k);
    Doubled(Parse(e), Pow2(k));
  }

  /** A shorter string of the same value, read from its beginning, has other bits. */
  lemma {:induction false} ShiftedDiffers(e: string, s: string, n: nat)
    requires IsBinary(e) && IsBinary(s) && |e| < |s| == 2 * n && Parse(e) == Parse(s) > 0
    ensures Deinterleave(e, 1, n) != Deinterleave(s, 1, n) || Deinterleave(e, 0, n) != Deinterleave(s, 0, n)
  {
    var padded := e + Zeros(|s| - |e|);
    PaddedDiffers(e, |s| - |e|);
    assert Deinterleave(padded, 0, n) == Deinterleave(e, 0, n);
    assert Deinterleave(padded, 1, n) == Deinterleave(e, 1, n);
    if Deinterleave(padded, 1, n) == Deinterleave(s, 1, n) && Deinterleave(padded, 0, n) == Deinterleave(s, 0, n) {
      DeinterleaveInjective(padded, s, n);
    }
  }

  /** A shorter hash has lost leading zeros, so the bits it decodes to are shifted and not those that were encoded. */
  lemma {:induction false} ShortHash(p: Point)
    requires |Hash(p)| < 12 && Parse(BitString(p)) > 0
    ensures IsNumeral(DIGITS, Hash(p))
    ensures Deinterleave(Expand(DIGITS, Hash(p)), 1, NUMBITS) != LatBits(p.lat) ||
            Deinterleave(Expand(DIGITS, Hash(p)), 0, NUMBITS) != LonBits(p.lon)
  {
    HashExpands(p);
    ShiftedDiffers(Expand(DIGITS, Hash(p)), BitString(p), NUMBITS);
    DeinterleaveInterleaved(LonBits(p.lon), LatBits(p.lat));
  }

  function Zeros(k: nat): (s: string)
    ensures |s| == k && forall i :: 0 <= i < k ==> s[i] == '0'
  {
    if k == 0 then "" else Zeros(k - 1) + ['0']
  }

  lemma {:induction false} ZerosParse(k: nat)
    ensures Parse(Zeros(k)) == 0
  {
    if k > 0 {
      ZerosParse(k - 1);
      assert Zeros(k)[..k - 1] == Zeros(k - 1);
    }
  }

  lemma {:induction false} Pow2Large(k: nat)
    ensures k > 0 ==> Pow2(k) >= 2
  {
    if k > 1 { Pow2Large(k - 1); }
  }

  lemma {:induction false} Doubled(v: nat, m: nat)
    requires v > 0 && m >= 2
    ensures v * m != v
  {
    assert v * m >= v * 2;
  }

  // ---------------------------------------------------------------- when the hash has full length

  /** The value of a binary string reaches 2^(n-k) exactly when one of its first k bits is set. */
  lemma {:induction false} HighBits(s: string, k: nat)
    requires IsBinary(s) && k <= |s|
    ensures Parse(s) >= Pow2(|s| - k) <==> exists i :: 0 <= i < k && s[i] == '1'
  {
    var n := |s| - k;
    var high, low := s[..k], s[k..];
    assert s == high + low;
    ParseConcat(high, low);
    ParseBound(low);
    ParsePositive(high);
    if Parse(high) > 0 {
      AtLeast(Parse(high), Pow2(n));
      var i :| 0 <= i < |high| && high[i] == '1';
      assert s[i] == '1';
    } else {
      forall i | 0 <= i < k ensures s[i] != '1' { assert high[i] == s[i]; }
    }
  }

  lemma {:induction false} AtLeast(a: nat, b: nat)
    requires a > 0
    ensures a * b >= b
  {
  }

  lemma {:induction false} ParsePositive(s: string)
    ensures Parse(s) > 0 <==> exists i :: 0 <= i < |s| && s[i] == '1'
  {
    if s != "" {
      var n := |s| - 1;
      ParsePositive(s[..n]);
      if exists i :: 0 <= i < |s| && s[i] == '1' {
        var i :| 0 <= i < |s| && s[i] == '1';
        if i < n { assert s[..n][i] == '1'; }
      }
      if Parse(s) > 0 && s[n] != '1' {
        var i :| 0 <= i < |s[..n]| && s[..n][i] == '1';
        assert s[i] == '1';
      }
    }
  }

  /** The first bits of a coordinate tell which part of its range it is in. */
  lemma {:induction false} FirstBits(p: Point)
    ensures LonBits(p.lon)[0] || LonBits(p.lon)[1] || LonBits(p.lon)[2] <==> p.lon >= -135.0
    ensures LatBits(p.lat)[0] || LatBits(p.lat)[1] <==> p.lat >= -45.0
  {
    var lon, lat := LonBits(p.lon), LatBits(p.lat);
    assert lon[0] <==> p.lon >= 0.0;
    assert lat[0] <==> p.lat >= 0.0;
    if p.lon < 0.0 {
      assert lon[1..] == Bisect(p.lon, -180.0, 0.0, 29);
      assert lon[1] == lon[1..][0];
      if p.lon < -90.0 {
        assert lon[2..] == Bisect(p.lon, -180.0, -90.0, 28);
        assert lon[2] == lon[2..][0];
      }
    }
    if p.lat < 0.0 {
      assert lat[1..] == Bisect(p.lat, -90.0, 0.0, 29);
      assert lat[1] == lat[1..][0];
    }
  }

  lemma {:induction false} FirstOfInterleave(lon: seq<bool>, lat: seq<bool>)
    requires |lon| == |lat| == 30
    ensures var s := Interleave(lon, lat);
            && s[0] == Bit(lon[0]) && s[1] == Bit(lat[0]) && s[2] == Bit(lon[1]) && s[3] == Bit(lat[1])
            && s[4] == Bit(lon[2])
  {
    var s := Interleave(lon, lat);
    assert s[2 * 0] == Bit(lon[0]) && s[2 * 0 + 1] == Bit(lat[0]);
    assert s[2 * 1] == Bit(lon[1]) && s[2 * 1 + 1] == Bit(lat[1]);
    assert s[2 * 2] == Bit(lon[2]);
  }

  lemma {:induction false} LeadingBits(lon: seq<bool>, lat: seq<bool>)
    requires |lon| == |lat| == 30
    ensures Parse(Interleave(lon, lat)) >= Pow2(55) <==> lon[0] || lat[0] || lon[1] || lat[1] || lon[2]
  {
    var s := Interleave(lon, lat);
    HighBits(s, 5);
    FirstOfInterleave(lon, lat);
    if exists i :: 0 <= i < 5 && s[i] == '1' {
      var i :| 0 <= i < 5 && s[i] == '1';
      assert i == 0 || i == 1 || i == 2 || i == 3 || i == 4;
    }
  }

  lemma {:induction false} FullLengthIff(p: Point)
    ensures |Hash(p)| == 12 <==> p.lon >= -135.0 || p.lat >= -45.0
  {
    HashExpands(p);
    NumeralLength(DIGITS, Parse(BitString(p)), 11);
    Pow2Sixty();
    LeadingBits(LonBits(p.lon), LatBits(p.lat));
    FirstBits(p);
  }

  // ---------------------------------------------------------------- the theorems

  /** What a caller can check before encoding. */
  predicate RoundTrips(p: Point) {
    && (p.lon >= -135.0 || p.lat >= -45.0)                   // the hash has all its twelve characters
    && p.lat >= -90.0 + 180.0 / 1073741824.0                 // some bit of the latitude is set
    && p.lon >= -180.0 + 360.0 / 1073741824.0                // some bit of the longitude is set
  }

  lemma {:induction false} SetIff(p: Point)
    ensures AnySet(LatBits(p.lat)) <==> p.lat >= -90.0 + 180.0 / 1073741824.0
    ensures AnySet(LonBits(p.lon)) <==> p.lon >= -180.0 + 360.0 / 1073741824.0
  {
    NoneSet(p.lat, -90.0, 90.0, 30);
    NoneSet(p.lon, -180.0, 180.0, 30);
    HalvedThirty(180.0);
    HalvedThirty(360.0);
  }

  /** Decoding the hash of a point gives the lower corner of its cell if and only if all twelve characters are there and
      each coordinate has a bit that is set. */
  lemma {:induction false} RoundTripTheorem(p: Point)
    ensures IsNumeral(DIGITS, Hash(p))
    ensures DecodedPoint(Expand(DIGITS, Hash(p))) == CellCorner(p) <==> RoundTrips(p)
  {
    HashExpands(p);
    FullLengthIff(p);
    SetIff(p);
    CornerInside(LatBits(p.lat), -90.0, 90.0);
    CornerInside(LonBits(p.lon), -180.0, 180.0);
    if |Hash(p)| == 12 {
      FullHash(p);
      if !AnySet(LatBits(p.lat)) { LowestCorner(LatBits(p.lat), -90.0, 90.0); }
      if !AnySet(LonBits(p.lon)) { LowestCorner(LonBits(p.lon), -180.0, 180.0); }
    } else {
      ShortHashFails(p);
    }
  }

  lemma {:induction false} LowestCorner(bits: seq<bool>, floor: real, ceiling: real)
    requires !AnySet(bits)
    ensures Corner(bits, floor, ceiling) == floor
  {
    CornerOfPrefix(bits, floor, ceiling, 0);
  }

  lemma {:induction false} ShortHashFails(p: Point)
    requires |Hash(p)| < 12 && IsNumeral(DIGITS, Hash(p))
    ensures DecodedPoint(Expand(DIGITS, Hash(p))) != CellCorner(p)
  {
    FullLengthIff(p);
    var e := Expand(DIGITS, Hash(p));
    var lat, lon := Deinterleave(e, 1, NUMBITS), Deinterleave(e, 0, NUMBITS);
    LowCorner(p);
    if DecodedPoint(e) == CellCorner(p) {
      assert AnySet(lat) && AnySet(lon);
      BisectCorner(lat, -90.0, 90.0);
      BisectCorner(lon, -180.0, 180.0);
      BisectCorner(LatBits(p.lat), -90.0, 90.0);
      BisectCorner(LonBits(p.lon), -180.0, 180.0);
      assert lat == LatBits(p.lat) && lon == LonBits(p.lon);
      HashExpands(p);
      var i :| 0 <= i < |lat| && lat[i];
      assert BitString(p)[2 * i + 1] == '1';
      ParsePositive(BitString(p));
      ShortHash(p);
    }
  }

  /** The cells of points with short hashes lie in the south-west of the map, away from zero. */
  lemma {:induction false} LowCorner(p: Point)
    requires p.lon < -135.0 && p.lat < -45.0
    ensures CellCorner(p).lat < 0.0 && CellCorner(p).lon < 0.0
  {
    var lat, lon := LatBits(p.lat), LonBits(p.lon);
    CornerInside(lat[1..], -90.0, 0.0);
    CornerInside(lon[1..], -180.0, 0.0);
  }

  /** What a hash of full length decodes to: the lower corner of the cell, but 0 for a coordinate in the lowest cell of
      its range, which is the one without a bit that is set. */
  lemma {:induction false} DecodedHash(p: Point)
    requires p.lon >= -135.0 || p.lat >= -45.0
    ensures IsNumeral(DIGITS, Hash(p))
    ensures DecodedPoint(Expand(DIGITS, Hash(p))) ==
            Point(if p.lat < -90.0 + 180.0 / 1073741824.0 then 0.0 else CellCorner(p).lat,
                  if p.lon < -180.0 + 360.0 / 1073741824.0 then 0.0 else CellCorner(p).lon)
  {
    FullLengthIff(p);
    FullHash(p);
    SetIff(p);
  }

  /** And then the corner is close to the point and has the same hash. */
  lemma {:induction false} CornerTheorem(p: Point)
    requires -90.0 <= p.lat <= 90.0 && -180.0 <= p.lon <= 180.0
    ensures 0.0 <= p.lat - CellCorner(p).lat <= 180.0 / 1073741824.0
    ensures 0.0 <= p.lon - CellCorner(p).lon <= 360.0 / 1073741824.0
    ensures Hash(CellCorner(p)) == Hash(p)
  {
    CellHolds(p.lat, -90.0, 90.0, 30);
    CellHolds(p.lon, -180.0, 180.0, 30);
    HalvedThirty(180.0);
    HalvedThirty(360.0);
    BisectCorner(LatBits(p.lat), -90.0, 90.0);
    BisectCorner(LonBits(p.lon), -180.0, 180.0);
  }
}
