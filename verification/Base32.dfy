/** Numbers as binary strings and in the base 32 of deps/lib/geohash/Geohash.java. */
module Base32 {

  /** Thirty-two different digits. */
  predicate Alphabet(digits: string) {
    |digits| == 32 && forall i, j :: 0 <= i < j < |digits| ==> digits[i] != digits[j]
  }

  /** `lookup`: the value of a digit, or -1 when the character is not one. */
  function ValueOf(digits: string, c: char): int {
    IndexIn(digits, c, 0)
  }

  function IndexIn(s: string, c: char, from: nat): (i: int)
    requires from <= |s|
    ensures i == -1 || (from <= i < |s| && s[i] == c)
    decreases |s| - from
  {
    if from == |s| then -1 else if s[from] == c then from else IndexIn(s, c, from + 1)
  }

  lemma {:induction false} IndexOfDistinct(s: string, from: nat, k: nat)
    requires from <= k < |s| && forall i, j :: 0 <= i < j < |s| ==> s[i] != s[j]
    ensures IndexIn(s, s[k], from) == k
    decreases k - from
  {
    if from < k { IndexOfDistinct(s, from + 1, k); }
  }

  lemma {:induction false} ValueOfDigit(digits: string, d: nat)
    requires Alphabet(digits) && d < 32
    ensures ValueOf(digits, digits[d]) == d
  {
    IndexOfDistinct(digits, 0, d);
  }

  lemma {:induction false} ValueFound(digits: string, c: char)
    ensures ValueOf(digits, c) >= 0 ==> ValueOf(digits, c) < |digits| && digits[ValueOf(digits, c)] == c
  {
  }

  /** The usual base-32 numeral, without leading zeros. */
  function Numeral(digits: string, n: nat): string
    requires |digits| == 32
  {
    if n < 32 then [digits[n]] else Numeral(digits, n / 32) + [digits[n % 32]]
  }

  // ---------------------------------------------------------------- binary strings

  predicate IsBinary(s: string) {
    forall i :: 0 <= i < |s| ==> s[i] == '0' || s[i] == '1'
  }

  /** `Long.parseLong(s, 2)` of a string of zeros and ones. */
  function Parse(s: string): nat {
    if s == "" then 0 else 2 * Parse(s[..|s| - 1]) + if s[|s| - 1] == '1' then 1 else 0
  }

  function Pow2(n: nat): nat {
    if n == 0 then 1 else 2 * Pow2(n - 1)
  }

  /** `Integer.toString(n, 2)`. */
  function ToBinary(n: nat): string {
    if n < 2 then [if n == 1 then '1' else '0'] else ToBinary(n / 2) + [if n % 2 == 1 then '1' else '0']
  }

  lemma {:induction false} ParseConcat(s: string, t: string)
    ensures Parse(s + t) == Parse(s) * Pow2(|t|) + Parse(t)
  {
    if t == "" {
      assert s + t == s;
    } else {
      var u := t[..|t| - 1];
      assert (s + t)[..|s + t| - 1] == s + u;
      ParseConcat(s, u);
      Twice(Parse(s), Pow2(|u|));
    }
  }

  lemma {:induction false} Twice(a: nat, b: nat)
    ensures a * (2 * b) == 2 * (a * b)
  {
  }

  lemma {:induction false} ParseBound(s: string)
    ensures Parse(s) < Pow2(|s|)
  {
    if s != "" { ParseBound(s[..|s| - 1]); }
  }

  /** Binary strings of the same length and value are the same. */
  lemma {:induction false} ParseInjective(s: string, t: string)
    requires IsBinary(s) && IsBinary(t) && |s| == |t| && Parse(s) == Parse(t)
    ensures s == t
  {
    if s != "" {
      var n := |s| - 1;
      assert s == s[..n] + [s[n]] && t == t[..n] + [t[n]];
      ParseInjective(s[..n], t[..n]);
    }
  }

  /** The five bits of a digit: the binary form of the digit plus 32, without its leading one. */
  function FiveBits(d: nat): (s: string)
    requires d < 32
    ensures |s| == 5 && IsBinary(s) && Parse(s) == d
  {
    FiveBitsFacts(d);
    ToBinary(d + 32)[1..]
  }

  lemma {:induction false} FiveBitsFacts(d: nat)
    requires d < 32
    ensures var s := ToBinary(d + 32); |s| == 6 && IsBinary(s) && s[0] == '1' && Parse(s[1..]) == d
  {
    var s := ToBinary(d + 32);
    ToBinaryFacts(d + 32, 6);
    assert s == s[..1] + s[1..];
    ParseConcat(s[..1], s[1..]);
    assert s[..1] == [s[0]];
    ParseOne(s[0]);
    ParseBound(s[1..]);
    assert Pow2(5) == 32;
  }

  lemma {:induction false} ParseOne(c: char)
    ensures Parse([c]) == if c == '1' then 1 else 0
  {
    assert [c][..0] == "";
  }

  lemma {:induction false} ToBinaryFacts(n: nat, k: nat)
    requires k > 0 && n < Pow2(k) && (k > 1 ==> Pow2(k - 1) <= n)
    ensures |ToBinary(n)| == k && IsBinary(ToBinary(n)) && Parse(ToBinary(n)) == n
  {
    if k == 1 {
      ParseOne(ToBinary(n)[0]);
    } else {
      ToBinaryFacts(n / 2, k - 1);
      var s := ToBinary(n);
      assert s[..|s| - 1] == ToBinary(n / 2);
    }
  }

  // ---------------------------------------------------------------- numerals and bits

  predicate IsNumeral(digits: string, s: string) {
    forall i :: 0 <= i < |s| ==> ValueOf(digits, s[i]) >= 0
  }

  /** The five bits of every digit, one digit after the other. */
  function Expand(digits: string, s: string): (bits: string)
    requires |digits| == 32 && IsNumeral(digits, s)
    ensures |bits| == 5 * |s| && IsBinary(bits)
  {
    if s == "" then "" else Expand(digits, s[..|s| - 1]) + FiveBits(ValueOf(digits, s[|s| - 1]))
  }

  lemma {:induction false} ExpandNext(digits: string, s: string, i: nat)
    requires |digits| == 32 && i < |s| && IsNumeral(digits, s[..i]) && 0 <= ValueOf(digits, s[i]) < 32
    ensures IsNumeral(digits, s[..i + 1])
    ensures Expand(digits, s[..i + 1]) == Expand(digits, s[..i]) + FiveBits(ValueOf(digits, s[i]))
  {
    assert s[..i + 1][..i] == s[..i];
  }

  lemma {:induction false} ExpandSnoc(digits: string, s: string, d: nat)
    requires Alphabet(digits) && IsNumeral(digits, s) && d < 32
    ensures IsNumeral(digits, s + [digits[d]]) && Expand(digits, s + [digits[d]]) == Expand(digits, s) + FiveBits(d)
  {
    ValueOfDigit(digits, d);
    var t := s + [digits[d]];
    forall i | 0 <= i < |t| ensures ValueOf(digits, t[i]) >= 0 {
      if i < |s| { assert t[i] == s[i]; }
    }
    assert t[..|s|] == s;
  }

  lemma {:induction false} NumeralExpands(digits: string, n: nat)
    requires Alphabet(digits)
    ensures IsNumeral(digits, Numeral(digits, n)) && Parse(Expand(digits, Numeral(digits, n))) == n
    decreases n
  {
    if n < 32 {
      NextDigit(digits, "", n);
      assert "" + [digits[n]] == Numeral(digits, n);
    } else {
      NumeralExpands(digits, n / 32);
      NextDigit(digits, Numeral(digits, n / 32), n % 32);
    }
  }

  lemma {:induction false} NextDigit(digits: string, high: string, d: nat)
    requires Alphabet(digits) && IsNumeral(digits, high) && d < 32
    ensures IsNumeral(digits, high + [digits[d]])
    ensures Parse(Expand(digits, high + [digits[d]])) == 32 * Parse(Expand(digits, high)) + d
  {
    ExpandSnoc(digits, high, d);
    FiveMore(Expand(digits, high), FiveBits(d));
  }

  lemma {:induction false} FiveMore(s: string, t: string)
    requires |t| == 5
    ensures Parse(s + t) == 32 * Parse(s) + Parse(t)
  {
    ParseConcat(s, t);
    assert Pow2(5) == 32;
  }

  function Pow32(k: nat): nat {
    if k == 0 then 1 else 32 * Pow32(k - 1)
  }

  /** How many digits a number has. */
  lemma {:induction false} NumeralLength(digits: string, n: nat, k: nat)
    requires |digits| == 32 && k > 0
    ensures 1 <= |Numeral(digits, n)| <= k <==> n < Pow32(k)
    ensures |Numeral(digits, n)| >= 1
    decreases k
  {
    if k == 1 {
      assert Pow32(1) == 32;
      if n >= 32 { assert |Numeral(digits, n / 32)| >= 1; }
    } else if n < 32 {
      Pow32Grows(k);
    } else {
      NumeralLength(digits, n / 32, k - 1);
    }
  }

  lemma {:induction false} Pow32Grows(k: nat)
    requires k > 0
    ensures Pow32(k) >= 32
  {
    if k > 1 { Pow32Grows(k - 1); }
  }

  // ---------------------------------------------------------------- base32 itself

  /** Java's `%` and `/` by 32, which truncate toward zero. */
  function Rem32(i: int): int {
    if i >= 0 then i % 32 else -((-i) % 32)
  }

  function Div32(i: int): int {
    if i >= 0 then i / 32 else -((-i) / 32)
  }

  lemma {:induction false} Pow32Thirteen()
    ensures Pow32(13) > 0x8000_0000_0000_0000 && Pow32(1) == 32
  {
    assert Pow32(4) == 1048576;
    assert Pow32(8) == 1048576 * 1048576;
    assert Pow32(12) == 1048576 * 1048576 * 1048576;
  }

  /** Taking the last digit off a numeral. */
  lemma {:induction false} NumeralSplit(digits: string, n: nat, rest: string)
    requires |digits| == 32 && n >= 32
    ensures Numeral(digits, n) + rest == Numeral(digits, n / 32) + ([digits[n % 32]] + rest)
  {
  }

  /** The loop of `base32`: fills the buffer from its end with all digits but the first. */
  method FillDigits(digits: string, buf: array<char>, start: int) returns (i: int, charPos: nat)
    requires |digits| == 32 && -0x8000_0000_0000_0000 <= start <= 0 && buf.Length == 65
    modifies buf
    ensures -32 < i <= 0 && 52 <= charPos <= 64
    ensures [digits[-i]] + buf[charPos + 1..] == Numeral(digits, -start)
  {
    i, charPos := start, 64;
    ghost var room := 13;
    Pow32Thirteen();
    while i <= -32
      invariant i <= 0 && 1 <= room <= 13 && charPos == 51 + room
      invariant -i < Pow32(room)
      invariant Numeral(digits, -i) + buf[charPos + 1..] == Numeral(digits, -start)
      decreases -i
    {
      NumeralSplit(digits, -i, buf[charPos + 1..]);
      buf[charPos] := digits[-Rem32(i)];
      assert buf[charPos..] == [digits[(-i) % 32]] + buf[charPos + 1..];
      charPos := charPos - 1;
      i := Div32(i);
      room := room - 1;
    }
  }

  /** `base32`: works on the negated number, so that every long has a numeral. */
  method ToBase32(digits: string, number: int) returns (s: string)
    requires |digits| == 32 && -0x8000_0000_0000_0000 <= number < 0x8000_0000_0000_0000
    ensures s == if number < 0 then "-" + Numeral(digits, -number) else Numeral(digits, number)
  {
    var buf := new char[65];
    var negative := number < 0;
    var i, charPos := FillDigits(digits, buf, if negative then number else -number);
    buf[charPos] := digits[-i];
    assert buf[charPos..] == [digits[-i]] + buf[charPos + 1..];
    if negative {
      charPos := charPos - 1;
      buf[charPos] := '-';
      assert buf[charPos..] == ['-'] + buf[charPos + 1..];
    }
    s := buf[charPos..];
  }
}
