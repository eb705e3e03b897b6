/** What the characters of a geohash say: deps/lib/geohash/Geohash.java writes five bits as one character, so that a
    prefix of a hash names a cell of the map. */
module Geocells {
  import opened Bisection
  import opened Base32
  import opened Geohash

  /** Hashes as long as they would be if leading zeros were not dropped. */
  const LENGTH: nat := 12

  // ---------------------------------------------------------------- the characters

  lemma {:induction false} ParseFive(bits: string)
    requires |bits| == 5
    ensures Parse(bits) < 32
  {
    ParseBound(bits);
    assert Pow2(5) == 32;
  }

  /** One character for every five bits. */
  function Symbols(bits: string, m: nat): (s: string)
    requires |bits| == 5 * m
    ensures |s| == m
    decreases m
  {
    if m == 0 then ""
    else
      var n := 5 * (m - 1);
      ParseFive(bits[n..]);
      Symbols(bits[..n], m - 1) + [Symbol(Parse(bits[n..]))]
  }

  /** The five bits that the character at `k` stands for. */
  function Five(bits: string, k: nat): (s: string)
    requires 5 * k + 5 <= |bits|
    ensures |s| == 5 && Parse(s) < 32
  {
    ParseFive(bits[5 * k..5 * k + 5]);
    bits[5 * k..5 * k + 5]
  }

  lemma {:induction false} SymbolAt(bits: string, m: nat, k: nat)
    requires |bits| == 5 * m && k < m
    ensures Symbols(bits, m)[k] == Symbol(Parse(Five(bits, k)))
    decreases m
  {
    var high := bits[..5 * (m - 1)];
    if k < m - 1 {
      SymbolAt(high, m - 1, k);
      assert Five(high, k) == Five(bits, k);
    } else {
      assert bits[5 * (m - 1)..] == Five(bits, k);
    }
  }

  /** A string filled up with zero digits at its front. */
  function Padded(s: string, n: nat): (r: string)
    requires |s| <= n
    ensures |r| == n
  {
    Zeros(n - |s|) + s
  }

  lemma {:induction false} SymbolsSplit(high: string, low: string, m: nat)
    requires |high| == 5 * m && |low| == 5
    ensures Parse(low) < 32 && Symbols(high + low, m + 1) == Symbols(high, m) + [Symbol(Parse(low))]
    ensures Parse(high + low) / 32 == Parse(high) && Parse(high + low) % 32 == Parse(low)
  {
    ParseFive(low);
    FiveMore(high, low);
    assert (high + low)[..5 * m] == high && (high + low)[5 * m..] == low;
  }

  lemma {:induction false} NextSymbol(n: nat, m: nat)
    requires m > 0 && |Numeral(DIGITS, n / 32)| <= m
    ensures |Numeral(DIGITS, n)| <= m + 1
    ensures Padded(Numeral(DIGITS, n), m + 1) == Padded(Numeral(DIGITS, n / 32), m) + [Symbol(n % 32)]
  {
    DigitIs(n % 32);
    if n < 32 {
      DigitIs(0);
      assert Numeral(DIGITS, n) == [Symbol(n)] && Numeral(DIGITS, n / 32) == "0";
      assert Zeros(m) == Zeros(m - 1) + "0";
    } else {
      var high := Numeral(DIGITS, n / 32);
      assert Numeral(DIGITS, n) == high + [Symbol(n % 32)];
      assert Zeros(m - |high|) + (high + [Symbol(n % 32)]) == Zeros(m - |high|) + high + [Symbol(n % 32)];
    }
  }

  /** A numeral without leading zeros, filled up, has one character for every five bits of its value. */
  lemma {:induction false} NumeralIs(bits: string, m: nat)
    requires |bits| == 5 * m && m > 0
    ensures |Numeral(DIGITS, Parse(bits))| <= m
    ensures Padded(Numeral(DIGITS, Parse(bits)), m) == Symbols(bits, m)
    decreases m
  {
    var high, low := bits[..5 * (m - 1)], bits[5 * (m - 1)..];
    assert bits == high + low;
    SymbolsSplit(high, low, m - 1);
    if m == 1 {
      DigitIs(Parse(bits));
    } else {
      NumeralIs(high, m - 1);
      NextSymbol(Parse(bits), m - 1);
    }
  }

  lemma {:induction false} NoLeadingZero(n: nat)
    ensures |Numeral(DIGITS, n)| >= 1
    ensures Numeral(DIGITS, n)[0] == '0' ==> n == 0 && Numeral(DIGITS, n) == "0"
    decreases n
  {
    if n < 32 {
      DigitIs(n);
    } else {
      NoLeadingZero(n / 32);
    }
  }

  lemma {:induction false} NumeralSymbol(bits: string, m: nat, k: nat)
    requires |bits| == 5 * m && k < m
    ensures 1 <= |Numeral(DIGITS, Parse(bits))| <= m
    ensures Padded(Numeral(DIGITS, Parse(bits)), m)[k] == Symbol(Parse(Five(bits, k)))
  {
    NumeralIs(bits, m);
    SymbolAt(bits, m, k);
    NoLeadingZero(Parse(bits));
  }

  /** Every character of every hash: with leading zeros put back, the character at `k` stands for the five bits from
      `5 * k` on; and a hash begins with a zero only when it is "0". */
  lemma {:induction false} CharacterTheorem(p: Point, k: nat)
    requires k < LENGTH
    ensures 1 <= |Hash(p)| <= LENGTH && (Hash(p)[0] == '0' ==> Hash(p) == "0")
    ensures Padded(Hash(p), LENGTH)[k] == Symbol(Parse(Five(BitString(p), k)))
  {
    var bits := BitString(p);
    NumeralSymbol(bits, LENGTH, k);
    NoLeadingZero(Parse(bits));
  }

  // ---------------------------------------------------------------- the first character

  /** Which of `n` bands of equal width, from `floor` up, a coordinate is in; the outer bands have no outer border. */
  function Band(x: real, floor: real, width: real, n: nat): (z: nat)
    requires width > 0.0 && n > 0
    ensures z < n
  {
    var z := ((x - floor) / width).Floor;
    if z < 0 then 0 else if z >= n then n - 1 else z
  }

  lemma {:induction false} LonBand(x: real)
    ensures var b := LonBits(x);
            Band(x, -180.0, 45.0, 8) == (if b[0] then 4 else 0) + (if b[1] then 2 else 0) + (if b[2] then 1 else 0)
  {
    var b := LonBits(x);
    BisectOnce(x, -180.0, 180.0, 30);
    var f1, c1 := if b[0] then 0.0 else -180.0, if b[0] then 180.0 else 0.0;
    assert b[1..] == Bisect(x, f1, c1, 29);
    BisectOnce(x, f1, c1, 29);
    var mid := (f1 + c1) / 2.0;
    var f2, c2 := if b[1] then mid else f1, if b[1] then c1 else mid;
    assert b[2..] == b[1..][1..] == Bisect(x, f2, c2, 28);
    BisectOnce(x, f2, c2, 28);
    assert b[1] == b[1..][0] && b[2] == b[2..][0];
    assert b[2] <==> x >= (f2 + c2) / 2.0;
  }

  lemma {:induction false} LatBand(x: real)
    ensures var b := LatBits(x);
            Band(x, -90.0, 45.0, 4) == (if b[0] then 2 else 0) + (if b[1] then 1 else 0)
  {
    var b := LatBits(x);
    BisectOnce(x, -90.0, 90.0, 30);
    var f1, c1 := if b[0] then 0.0 else -90.0, if b[0] then 90.0 else 0.0;
    assert b[1..] == Bisect(x, f1, c1, 29);
    BisectOnce(x, f1, c1, 29);
    assert b[1] == b[1..][0];
  }

  lemma {:induction false} ParseTwice(s: string, c: char)
    ensures Parse(s + [c]) == 2 * Parse(s) + if c == '1' then 1 else 0
  {
    assert (s + [c])[..|s|] == s;
  }

  lemma {:induction false} ParseOfFive(s: string)
    requires |s| == 5
    ensures Parse(s) == (if s[0] == '1' then 16 else 0) + (if s[1] == '1' then 8 else 0) +
            (if s[2] == '1' then 4 else 0) + (if s[3] == '1' then 2 else 0) + (if s[4] == '1' then 1 else 0)
  {
    ParseOne(s[0]);
    ParseTwice([s[0]], s[1]);
    ParseTwice([s[0]] + [s[1]], s[2]);
    ParseTwice([s[0]] + [s[1]] + [s[2]], s[3]);
    ParseTwice([s[0]] + [s[1]] + [s[2]] + [s[3]], s[4]);
    assert s == [s[0]] + [s[1]] + [s[2]] + [s[3]] + [s[4]];
  }

  lemma {:induction false} FirstFive(lon: seq<bool>, lat: seq<bool>)
    requires |lon| == |lat| == 30
    ensures Parse(Five(Interleave(lon, lat), 0)) ==
            (if lon[0] then 16 else 0) + (if lat[0] then 8 else 0) + (if lon[1] then 4 else 0) +
            (if lat[1] then 2 else 0) + (if lon[2] then 1 else 0)
  {
    FirstOfInterleave(lon, lat);
    ParseOfFive(Five(Interleave(lon, lat), 0));
  }

  /** The value of the first character on a map of eight bands of longitude and four of latitude. */
  function FirstValue(octant: nat, quadrant: nat): (v: nat)
    requires octant < 8 && quadrant < 4
    ensures v < 32
  {
    16 * (octant / 4) + 8 * (quadrant / 2) + 4 * (octant / 2 % 2) + 2 * (quadrant % 2) + octant % 2
  }

  lemma {:induction false} FirstValueIs(lon: seq<bool>, lat: seq<bool>, octant: nat, quadrant: nat)
    requires |lon| == |lat| == 30 && octant < 8 && quadrant < 4
    requires octant == (if lon[0] then 4 else 0) + (if lon[1] then 2 else 0) + (if lon[2] then 1 else 0)
    requires quadrant == (if lat[0] then 2 else 0) + (if lat[1] then 1 else 0)
    ensures Parse(Five(Interleave(lon, lat), 0)) == FirstValue(octant, quadrant)
  {
    FirstFive(lon, lat);
  }

  /** The first character of every hash of full length, from the coordinates alone. */
  lemma {:induction false} FirstCharacter(p: Point)
    requires p.lon >= -135.0 || p.lat >= -45.0
    ensures |Hash(p)| == LENGTH
    ensures Hash(p)[0] == Symbol(FirstValue(Band(p.lon, -180.0, 45.0, 8), Band(p.lat, -90.0, 45.0, 4)))
  {
    FullLengthIff(p);
    CharacterTheorem(p, 0);
    LonBand(p.lon);
    LatBand(p.lat);
    FirstValueIs(LonBits(p.lon), LatBits(p.lat), Band(p.lon, -180.0, 45.0, 8), Band(p.lat, -90.0, 45.0, 4));
  }

  /** The middle of a part of that map. */
  function Middle(octant: nat, quadrant: nat): Point {
    Point(-67.5 + 45.0 * quadrant as real, -157.5 + 45.0 * octant as real)
  }

  lemma {:induction false} MiddleBands(octant: nat, quadrant: nat)
    requires octant < 8 && quadrant < 4
    ensures var p := Middle(octant, quadrant);
            Band(p.lon, -180.0, 45.0, 8) == octant && Band(p.lat, -90.0, 45.0, 4) == quadrant
  {
  }

  /** The hash of the south-west corner of the map. */
  lemma {:induction false} CornerHash()
    ensures Hash(Point(-90.0, -180.0)) == "0"
  {
    var p := Point(-90.0, -180.0);
    SetIff(p);
    var bits := BitString(p);
    forall i | 0 <= i < |bits| ensures bits[i] != '1' {
      var k := i / 2;
      assert !LonBits(p.lon)[k] && !LatBits(p.lat)[k];
      assert bits[2 * k] == Bit(LonBits(p.lon)[k]) && bits[2 * k + 1] == Bit(LatBits(p.lat)[k]);
    }
    ParsePositive(bits);
    DigitIs(0);
  }

  lemma {:induction false} ValueOfBands(a: nat, b: nat, c: nat, d: nat, e: nat)
    requires a < 2 && b < 2 && c < 2 && d < 2 && e < 2
    ensures FirstValue(4 * a + 2 * c + e, 2 * b + d) == 16 * a + 8 * b + 4 * c + 2 * d + e
  {
  }

  lemma {:induction false} InBits(v: nat) returns (a: nat, b: nat, c: nat, d: nat, e: nat)
    requires v < 32
    ensures a < 2 && b < 2 && c < 2 && d < 2 && e < 2 && v == 16 * a + 8 * b + 4 * c + 2 * d + e
  {
    a := v / 16;
    b := (v - 16 * a) / 8;
    c := (v - 16 * a - 8 * b) / 4;
    d := (v - 16 * a - 8 * b - 4 * c) / 2;
    e := v - 16 * a - 8 * b - 4 * c - 2 * d;
  }

  lemma {:induction false} Begins(v: nat) returns (p: Point)
    requires 0 < v < 32
    ensures |Hash(p)| == LENGTH && Hash(p)[0] == Symbol(v)
  {
    var a, b, c, d, e := InBits(v);
    var octant, quadrant := 4 * a + 2 * c + e, 2 * b + d;
    p := Middle(octant, quadrant);
    MiddleBands(octant, quadrant);
    ValueOfBands(a, b, c, d, e);
    FirstCharacter(p);
  }

  /** Only readable characters occur in hashes, and every one of them does. */
  lemma {:induction false} OccursIff(c: char)
    ensures (exists p :: c in Hash(p)) <==> Readable(c)
  {
    if p :| c in Hash(p) {
      HashExpands(p);
      ReadableIff(c);
    }
    if Readable(c) {
      var v := ReadableIsSymbol(c);
      if v == 0 {
        CornerHash();
        assert c in Hash(Point(-90.0, -180.0));
      } else {
        var p := Begins(v);
        assert c in Hash(p);
      }
    }
  }

  // ---------------------------------------------------------------- prefixes name cells

  lemma {:induction false} BisectPrefix(x: real, floor: real, ceiling: real, n: nat, k: nat)
    requires k <= n
    ensures Bisect(x, floor, ceiling, n)[..k] == Bisect(x, floor, ceiling, k)
    decreases k
  {
    if k > 0 {
      var mid := (floor + ceiling) / 2.0;
      if x >= mid {
        BisectPrefix(x, mid, ceiling, n - 1, k - 1);
      } else {
        BisectPrefix(x, floor, mid, n - 1, k - 1);
      }
    }
  }

  lemma {:induction false} FiveSame(s: string, t: string, k: nat)
    requires 5 * k + 5 <= |s| == |t| && IsBinary(s) && IsBinary(t)
    ensures Symbol(Parse(Five(s, k))) == Symbol(Parse(Five(t, k))) <==> Five(s, k) == Five(t, k)
  {
    DigitIs(Parse(Five(s, k)));
    DigitIs(Parse(Five(t, k)));
    if Parse(Five(s, k)) == Parse(Five(t, k)) { ParseInjective(Five(s, k), Five(t, k)); }
  }

  predicate SameFives(s: string, t: string, k: nat)
    requires 5 * k <= |s| == |t|
  {
    forall j :: 0 <= j < k ==> Five(s, j) == Five(t, j)
  }

  lemma {:induction false} PrefixOfFives(s: string, t: string, k: nat)
    requires 5 * k <= |s| == |t|
    ensures s[..5 * k] == t[..5 * k] <==> SameFives(s, t, k)
  {
    if s[..5 * k] == t[..5 * k] {
      forall j | 0 <= j < k ensures Five(s, j) == Five(t, j) {
        assert Five(s, j) == s[..5 * k][5 * j..5 * j + 5];
        assert Five(t, j) == t[..5 * k][5 * j..5 * j + 5];
      }
    }
    if SameFives(s, t, k) {
      forall i | 0 <= i < 5 * k ensures s[i] == t[i] {
        assert Five(s, i / 5)[i % 5] == Five(t, i / 5)[i % 5];
      }
    }
  }

  lemma {:induction false} PrefixOfBits(lon: seq<bool>, lat: seq<bool>, lon': seq<bool>, lat': seq<bool>, n: nat)
    requires |lon| == |lat| == |lon'| == |lat'| && n <= 2 * |lon|
    ensures Interleave(lon, lat)[..n] == Interleave(lon', lat')[..n] <==>
            lon[..(n + 1) / 2] == lon'[..(n + 1) / 2] && lat[..n / 2] == lat'[..n / 2]
  {
    var s, t := Interleave(lon, lat), Interleave(lon', lat');
    if s[..n] == t[..n] {
      forall i | 0 <= i < (n + 1) / 2 ensures lon[i] == lon'[i] { assert s[..n][2 * i] == t[..n][2 * i]; }
      forall i | 0 <= i < n / 2 ensures lat[i] == lat'[i] { assert s[..n][2 * i + 1] == t[..n][2 * i + 1]; }
    }
    if lon[..(n + 1) / 2] == lon'[..(n + 1) / 2] && lat[..n / 2] == lat'[..n / 2] {
      forall i | 0 <= i < n ensures s[i] == t[i] {
        var k := i / 2;
        if i % 2 == 0 {
          assert lon[..(n + 1) / 2][k] == lon'[..(n + 1) / 2][k] && s[2 * k] == t[2 * k];
        } else {
          assert lat[..n / 2][k] == lat'[..n / 2][k] && s[2 * k + 1] == t[2 * k + 1];
        }
      }
    }
  }

  /** The lower corner of the cell of a coordinate after `n` bisections. */
  function CellOf(x: real, floor: real, ceiling: real, n: nat): real {
    Corner(Bisect(x, floor, ceiling, n), floor, ceiling)
  }

  lemma {:induction false} SameBits(x: real, y: real, floor: real, ceiling: real, n: nat)
    requires floor < ceiling
    ensures CellOf(x, floor, ceiling, n) == CellOf(y, floor, ceiling, n) <==>
            Bisect(x, floor, ceiling, n) == Bisect(y, floor, ceiling, n)
  {
    BisectCorner(Bisect(x, floor, ceiling, n), floor, ceiling);
    BisectCorner(Bisect(y, floor, ceiling, n), floor, ceiling);
  }

  /** The corner of the cell that `k` characters name: five bits each, longitude first. */
  function Cell(p: Point, k: nat): Point {
    Point(CellOf(p.lat, -90.0, 90.0, 5 * k / 2), CellOf(p.lon, -180.0, 180.0, (5 * k + 1) / 2))
  }

  lemma {:induction false} HashLength(p: Point)
    ensures |Hash(p)| <= LENGTH
  {
    HashExpands(p);
  }

  lemma {:induction false} FivesOfBits(lon: seq<bool>, lat: seq<bool>, lon': seq<bool>, lat': seq<bool>, k: nat)
    requires |lon| == |lat| == |lon'| == |lat'| && 5 * k <= 2 * |lon|
    ensures SameFives(Interleave(lon, lat), Interleave(lon', lat'), k) <==>
            lon[..(5 * k + 1) / 2] == lon'[..(5 * k + 1) / 2] && lat[..5 * k / 2] == lat'[..5 * k / 2]
  {
    PrefixOfFives(Interleave(lon, lat), Interleave(lon', lat'), k);
    PrefixOfBits(lon, lat, lon', lat', 5 * k);
  }

  lemma {:induction false} SamePrefix(p: Point, q: Point, k: nat)
    requires k <= LENGTH && |Hash(p)| <= LENGTH && |Hash(q)| <= LENGTH
    ensures Padded(Hash(p), LENGTH)[..k] == Padded(Hash(q), LENGTH)[..k] <==>
            SameFives(BitString(p), BitString(q), k)
  {
    var h, g := Padded(Hash(p), LENGTH), Padded(Hash(q), LENGTH);
    forall j | 0 <= j < k ensures h[j] == g[j] <==> Five(BitString(p), j) == Five(BitString(q), j) {
      CharacterTheorem(p, j);
      CharacterTheorem(q, j);
      FiveSame(BitString(p), BitString(q), j);
    }
    if h[..k] == g[..k] {
      forall j | 0 <= j < k ensures h[j] == g[j] { assert h[..k][j] == g[..k][j]; }
    }
  }

  /** Any first bits of a coordinate are its bits after so many bisections. */
  predicate BitsOf(bits: seq<bool>, x: real, floor: real, ceiling: real) {
    forall n :: 0 <= n <= |bits| ==> bits[..n] == Bisect(x, floor, ceiling, n)
  }

  lemma {:induction false} PointBits(p: Point)
    ensures BitsOf(LonBits(p.lon), p.lon, -180.0, 180.0) && BitsOf(LatBits(p.lat), p.lat, -90.0, 90.0)
  {
    forall n | 0 <= n <= 30 ensures LonBits(p.lon)[..n] == Bisect(p.lon, -180.0, 180.0, n) {
      BisectPrefix(p.lon, -180.0, 180.0, 30, n);
    }
    forall n | 0 <= n <= 30 ensures LatBits(p.lat)[..n] == Bisect(p.lat, -90.0, 90.0, n) {
      BisectPrefix(p.lat, -90.0, 90.0, 30, n);
    }
  }

  lemma {:induction false} FivesNameCells(p: Point, q: Point, lon: seq<bool>, lat: seq<bool>, lon': seq<bool>,
      lat': seq<bool>, k: nat)
    requires k <= LENGTH && |lon| == |lat| == |lon'| == |lat'| == NUMBITS
    requires BitsOf(lon, p.lon, -180.0, 180.0) && BitsOf(lat, p.lat, -90.0, 90.0)
    requires BitsOf(lon', q.lon, -180.0, 180.0) && BitsOf(lat', q.lat, -90.0, 90.0)
    ensures SameFives(Interleave(lon, lat), Interleave(lon', lat'), k) <==>
            Cell(p, k) == Cell(q, k)
  {
    FivesOfBits(lon, lat, lon', lat', k);
    SameBits(p.lon, q.lon, -180.0, 180.0, (5 * k + 1) / 2);
    SameBits(p.lat, q.lat, -90.0, 90.0, 5 * k / 2);
  }

  /** Hashes share their first `k` characters, leading zeros put back, exactly when the points share the cell that `k`
      characters name. */
  lemma {:induction false} PrefixTheorem(p: Point, q: Point, k: nat)
    requires k <= LENGTH
    ensures |Hash(p)| <= LENGTH && |Hash(q)| <= LENGTH
    ensures Padded(Hash(p), LENGTH)[..k] == Padded(Hash(q), LENGTH)[..k] <==> Cell(p, k) == Cell(q, k)
  {
    HashLength(p);
    HashLength(q);
    SamePrefix(p, q, k);
    PointBits(p);
    PointBits(q);
    FivesNameCells(p, q, LonBits(p.lon), LatBits(p.lat), LonBits(q.lon), LatBits(q.lat), k);
  }

  /** So points on the map whose hashes share `k` characters are near each other, within a cell that halves with each
      bit. */
  lemma {:induction false} NearTheorem(p: Point, q: Point, k: nat)
    requires k <= LENGTH && |Hash(p)| <= LENGTH && |Hash(q)| <= LENGTH
    requires -90.0 <= p.lat <= 90.0 && -180.0 <= p.lon <= 180.0 && -90.0 <= q.lat <= 90.0 && -180.0 <= q.lon <= 180.0
    requires Padded(Hash(p), LENGTH)[..k] == Padded(Hash(q), LENGTH)[..k]
    ensures -Halved(180.0, 5 * k / 2) <= p.lat - q.lat <= Halved(180.0, 5 * k / 2)
    ensures -Halved(360.0, (5 * k + 1) / 2) <= p.lon - q.lon <= Halved(360.0, (5 * k + 1) / 2)
  {
    PrefixTheorem(p, q, k);
    CellHolds(p.lat, -90.0, 90.0, 5 * k / 2);
    CellHolds(q.lat, -90.0, 90.0, 5 * k / 2);
    CellHolds(p.lon, -180.0, 180.0, (5 * k + 1) / 2);
    CellHolds(q.lon, -180.0, 180.0, (5 * k + 1) / 2);
  }
}
