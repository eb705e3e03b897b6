/** Bisection of an interval, bit by bit, as deps/lib/geohash/Geohash.java does it to each coordinate. */
module Bisection {

  /** The bits of `x` in the interval: `getBits`. */
  function Bisect(x: real, floor: real, ceiling: real, n: nat): (bits: seq<bool>)
    ensures |bits| == n
    decreases n
  {
    if n == 0 then []
    else
      var mid := (floor + ceiling) / 2.0;
      if x >= mid then [true] + Bisect(x, mid, ceiling, n - 1) else [false] + Bisect(x, floor, mid, n - 1)
  }

  /** The lower corner of the cell that the bits name. */
  function Corner(bits: seq<bool>, floor: real, ceiling: real): real
    decreases bits
  {
    if bits == [] then floor
    else
      var mid := (floor + ceiling) / 2.0;
      if bits[0] then Corner(bits[1..], mid, ceiling) else Corner(bits[1..], floor, mid)
  }

  function Halved(width: real, n: nat): real
    decreases n
  {
    if n == 0 then width else Halved(width / 2.0, n - 1)
  }

  lemma {:induction false} CornerInside(bits: seq<bool>, floor: real, ceiling: real)
    requires floor < ceiling
    ensures floor <= Corner(bits, floor, ceiling) < ceiling
    decreases bits
  {
    if bits != [] {
      var mid := (floor + ceiling) / 2.0;
      if bits[0] { CornerInside(bits[1..], mid, ceiling); } else { CornerInside(bits[1..], floor, mid); }
    }
  }

  /** The point lies in its cell. */
  lemma {:induction false} CellHolds(x: real, floor: real, ceiling: real, n: nat)
    requires floor <= x <= ceiling && floor < ceiling
    ensures var corner := Corner(Bisect(x, floor, ceiling, n), floor, ceiling);
            corner <= x <= corner + Halved(ceiling - floor, n)
    decreases n
  {
    if n > 0 {
      var mid := (floor + ceiling) / 2.0;
      assert ceiling - mid == (ceiling - floor) / 2.0 == mid - floor;
      if x >= mid {
        CellHolds(x, mid, ceiling, n - 1);
        assert Bisect(x, floor, ceiling, n)[1..] == Bisect(x, mid, ceiling, n - 1);
      } else {
        CellHolds(x, floor, mid, n - 1);
        assert Bisect(x, floor, ceiling, n)[1..] == Bisect(x, floor, mid, n - 1);
      }
    }
  }

  /** Bisecting a corner gives back the bits that name it. */
  lemma {:induction false} BisectCorner(bits: seq<bool>, floor: real, ceiling: real)
    requires floor < ceiling
    ensures Bisect(Corner(bits, floor, ceiling), floor, ceiling, |bits|) == bits
    decreases bits
  {
    if bits != [] {
      var mid := (floor + ceiling) / 2.0;
      if bits[0] {
        CornerInside(bits[1..], mid, ceiling);
        BisectCorner(bits[1..], mid, ceiling);
      } else {
        CornerInside(bits[1..], floor, mid);
        BisectCorner(bits[1..], floor, mid);
      }
      assert bits == [bits[0]] + bits[1..];
    }
  }

  predicate AnySet(bits: seq<bool>) {
    exists i :: 0 <= i < |bits| && bits[i]
  }

  /** `BitSet.length()`: one more than the highest bit that is set. */
  function LengthOf(bits: seq<bool>): (n: nat)
    ensures n <= |bits| && (n > 0 ==> bits[n - 1]) && forall i :: n <= i < |bits| ==> !bits[i]
  {
    if bits == [] then 0 else if bits[|bits| - 1] then |bits| else LengthOf(bits[..|bits| - 1])
  }

  /** Clear bits at the end only lower the ceiling. */
  lemma {:induction false} CornerOfPrefix(bits: seq<bool>, floor: real, ceiling: real, n: nat)
    requires n <= |bits| && forall i :: n <= i < |bits| ==> !bits[i]
    ensures Corner(bits[..n], floor, ceiling) == Corner(bits, floor, ceiling)
    decreases bits
  {
    if bits != [] {
      var mid := (floor + ceiling) / 2.0;
      if n > 0 {
        assert bits[..n][1..] == bits[1..][..n - 1];
        if bits[0] {
          CornerOfPrefix(bits[1..], mid, ceiling, n - 1);
        } else {
          CornerOfPrefix(bits[1..], floor, mid, n - 1);
        }
      } else {
        CornerOfPrefix(bits[1..], floor, mid, 0);
      }
    }
  }

  /** No bit is set exactly for the points of the lowest cell. */
  lemma {:induction false} NoneSet(x: real, floor: real, ceiling: real, n: nat)
    requires n > 0 && floor < ceiling
    ensures AnySet(Bisect(x, floor, ceiling, n)) <==> x >= floor + Halved(ceiling - floor, n)
    decreases n
  {
    var mid := (floor + ceiling) / 2.0;
    var bits := Bisect(x, floor, ceiling, n);
    assert mid - floor == (ceiling - floor) / 2.0;
    HalvedPositive(mid - floor, n - 1);
    if x >= mid {
      assert bits[0];
    } else {
      var rest := Bisect(x, floor, mid, n - 1);
      assert bits[1..] == rest;
      if AnySet(rest) {
        var i :| 0 <= i < |rest| && rest[i];
        assert bits[i + 1];
      }
      if AnySet(bits) {
        var i :| 0 <= i < |bits| && bits[i];
        assert rest[i - 1];
      }
      if n > 1 { NoneSet(x, floor, mid, n - 1); }
    }
  }

  lemma {:induction false} HalvedPositive(width: real, n: nat)
    requires width > 0.0
    ensures 0.0 < Halved(width, n) <= width
    decreases n
  {
    if n > 0 { HalvedPositive(width / 2.0, n - 1); }
  }

  lemma {:induction false} HalvedTen(width: real)
    ensures Halved(width, 10) == width / 1024.0
  {
    assert Halved(width, 10) == Halved(width / 4.0, 8) == Halved(width / 16.0, 6) == Halved(width / 64.0, 4);
    assert Halved(width / 64.0, 4) == Halved(width / 256.0, 2) == Halved(width / 1024.0, 0);
  }

  lemma {:induction false} HalvedSum(width: real, m: nat, n: nat)
    ensures Halved(width, m + n) == Halved(Halved(width, m), n)
    decreases m
  {
    if m > 0 { HalvedSum(width / 2.0, m - 1, n); }
  }

  lemma {:induction false} HalvedThirty(width: real)
    ensures Halved(width, 30) == width / 1073741824.0
  {
    HalvedSum(width, 10, 20);
    HalvedSum(width / 1024.0, 10, 10);
    HalvedTen(width);
    HalvedTen(width / 1024.0);
    HalvedTen(width / 1024.0 / 1024.0);
  }
}
