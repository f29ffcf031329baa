/** Decimal numbers as Redis, Lua and Go print and parse them. */
module Decimal {
  import opened Protocol

  const TWO_64: nat := 0x1_0000_0000_0000_0000

  /** The first integer that Lua's 14 significant digits cannot print exactly. */
  const LUA_LIMIT: nat := 100_000_000_000_000

  const DIGITS: string := "0123456789"

  predicate IsDigit(c: char) {
    '0' <= c <= '9'
  }

  predicate AllDigits(s: string) {
    forall i :: 0 <= i < |s| ==> IsDigit(s[i])
  }

  function Print(n: nat): (s: string)
    ensures s != "" && AllDigits(s)
  {
    if n < 10 then [DIGITS[n]] else Print(n / 10) + [DIGITS[n % 10]]
  }

  function Value(s: string): nat
    requires AllDigits(s)
  {
    if s == "" then 0 else 10 * Value(s[..|s| - 1]) + (s[|s| - 1] as int - '0' as int)
  }

  lemma ValueExtend(s: string, d: nat)
    requires AllDigits(s) && d < 10
    ensures AllDigits(s + [DIGITS[d]]) && Value(s + [DIGITS[d]]) == 10 * Value(s) + d
  {
    var longer := s + [DIGITS[d]];
    assert longer[..|longer| - 1] == s;
    assert DIGITS[d] as int - '0' as int == d;
  }

  lemma {:induction false} ValueOfPrint(n: nat)
    ensures Value(Print(n)) == n
  {
    if n < 10 {
      ValueExtend("", n);
      assert Print(n) == "" + [DIGITS[n]];
    } else {
      ValueOfPrint(n / 10);
      ValueExtend(Print(n / 10), n % 10);
    }
  }

  /** What a base-10 unsigned 64-bit parse leaves behind when its error is ignored:
      0 on malformed input, the largest value on overflow. */
  function ParseUint(s: string): nat {
    if s == "" || !AllDigits(s) then 0
    else if Value(s) < TWO_64 then Value(s)
    else TWO_64 - 1
  }

  /** INCR accepts a value only if it reads as an integer. */
  function ParseCounter(s: string): Option<nat> {
    if s == "" || !AllDigits(s) then None else Some(Value(s))
  }

  /** The largest 64-bit number not above what the digits say; 0 if there are none. */
  lemma ParseUintSaturates(s: string, v: nat)
    ensures ParseUint(s) < TWO_64
    ensures s != "" && AllDigits(s) ==>
      ParseUint(s) <= Value(s) && (v <= Value(s) && v < TWO_64 ==> v <= ParseUint(s))
    ensures s == "" || !AllDigits(s) ==> ParseUint(s) == 0
  {
  }

  // ---- Lua's number-to-string conversion, "%.14g" ----

  function Pow10(e: nat): (p: nat)
    ensures p > 0
  {
    if e == 0 then 1 else 10 * Pow10(e - 1)
  }

  function RoundHalfEven(n: nat, unit: nat): nat
    requires unit > 0
  {
    var q, r := n / unit, n % unit;
    if 2 * r > unit || (2 * r == unit && q % 2 == 1) then q + 1 else q
  }

  function TrimZeros(s: string): string {
    if |s| > 1 && s[|s| - 1] == '0' then TrimZeros(s[..|s| - 1]) else s
  }

  /** Exponent notation with 14 significant digits and no trailing zeros. */
  function Scientific(n: nat): string
    requires n >= LUA_LIMIT
  {
    var e := |Print(n)| - 1;
    var rounded := RoundHalfEven(n, Pow10(if e < 13 then 0 else e - 13));
    var carried := rounded == LUA_LIMIT;
    var digits := TrimZeros(Print(if carried then LUA_LIMIT / 10 else rounded));
    Mantissa(digits) + "e+" + Print(if carried then e + 1 else e)
  }

  function Mantissa(digits: string): string {
    if |digits| > 1 then digits[..1] + "." + digits[1..] else digits
  }

  /** `m` units are as near to `n` as whole units can be. */
  predicate Nearest(n: nat, m: nat, unit: nat) {
    2 * (m * unit - n) <= unit && 2 * (n - m * unit) <= unit
  }

  lemma RoundsToNearest(n: nat, unit: nat)
    requires unit > 0
    ensures Nearest(n, RoundHalfEven(n, unit), unit)
    ensures 2 * (n % unit) == unit ==> RoundHalfEven(n, unit) % 2 == 0
    ensures n / unit <= RoundHalfEven(n, unit) <= n / unit + 1
  {
    var q, r := n / unit, n % unit;
    assert n == q * unit + r;
    assert (q + 1) * unit == q * unit + unit;
  }

  lemma {:induction false} PowAdd(a: nat, b: nat)
    ensures Pow10(a + b) == Pow10(a) * Pow10(b)
  {
    if a > 0 {
      PowAdd(a - 1, b);
    }
  }

  lemma {:induction false} PrintLength(n: nat)
    requires n > 0
    ensures Pow10(|Print(n)| - 1) <= n < Pow10(|Print(n)|)
  {
    if n >= 10 {
      PrintLength(n / 10);
    }
  }

  lemma {:induction false} PowGrows(a: nat, b: nat)
    requires a <= b
    ensures Pow10(a) <= Pow10(b)
    decreases b
  {
    if a < b {
      PowGrows(a, b - 1);
    }
  }

  lemma {:induction false} TrimZerosKeepsValue(s: string)
    requires AllDigits(s)
    ensures var u := TrimZeros(s);
      && u <= s && AllDigits(u) && Value(s) == Value(u) * Pow10(|s| - |u|)
      && (|u| > 1 ==> u[|u| - 1] != '0')
  {
    if |s| > 1 && s[|s| - 1] == '0' {
      var front := s[..|s| - 1];
      var u := TrimZeros(front);
      TrimZerosKeepsValue(front);
      Shift(Value(u), |front| - |u|);
    }
  }

  lemma Shift(v: nat, k: nat)
    ensures 10 * (v * Pow10(k)) == v * Pow10(k + 1)
  {
    TenTimes(v, Pow10(k));
  }

  lemma Limits()
    ensures LUA_LIMIT == Pow10(14) && LUA_LIMIT / 10 == Pow10(13)
  {
    assert Pow10(7) == 10_000_000;
    PowAdd(7, 7);
    PowAdd(1, 13);
    assert Pow10(1) == 10;
  }

  /** `n` has at least 15 digits; cut to 14 they lie between 10^13 and 10^14. */
  lemma Units(n: nat) returns (e: nat)
    requires n >= LUA_LIMIT
    ensures e == |Print(n)| - 1 && e >= 14
    ensures Pow10(13) <= n / Pow10(e - 13) < Pow10(14)
  {
    e := |Print(n)| - 1;
    PrintLength(n);
    Limits();
    if e < 14 {
      PowGrows(e + 1, 14);
    }
    PowAdd(13, e - 13);
    PowAdd(14, e - 13);
    Quotient(n, Pow10(e - 13), Pow10(13), Pow10(14));
  }

  lemma Below(q: nat, r: nat, unit: nat, low: nat)
    requires r < unit && q < low
    ensures q * unit + r < low * unit
  {
    assert (q + 1) * unit <= low * unit;
  }

  lemma Above(q: nat, r: nat, unit: nat, high: nat)
    requires high <= q
    ensures high * unit <= q * unit + r
  {
  }

  lemma Quotient(n: nat, unit: nat, low: nat, high: nat)
    requires unit > 0 && low * unit <= n < high * unit
    ensures low <= n / unit < high
  {
    var q, r := n / unit, n % unit;
    if q < low {
      Below(q, r, unit, low);
    }
    if high <= q {
      Above(q, r, unit, high);
    }
  }

  /** Rounding may carry into a fifteenth digit, which moves the point by one. */
  lemma RoundedOrCarried(n: nat, e: nat) returns (m: nat, x: nat)
    requires e >= 14 && Pow10(13) <= n / Pow10(e - 13) < Pow10(14)
    ensures var rounded := RoundHalfEven(n, Pow10(e - 13));
      && m == (if rounded == LUA_LIMIT then LUA_LIMIT / 10 else rounded)
      && x == (if rounded == LUA_LIMIT then e + 1 else e)
    ensures Pow10(13) <= m < Pow10(14) && Nearest(n, m, Pow10(x - 13))
  {
    var unit := Pow10(e - 13);
    var rounded := RoundHalfEven(n, unit);
    RoundsToNearest(n, unit);
    Limits();
    if rounded == LUA_LIMIT {
      m, x := LUA_LIMIT / 10, e + 1;
      assert Pow10(x - 13) == 10 * unit;
      TenTimes(LUA_LIMIT / 10, unit);
    } else {
      m, x := rounded, e;
    }
  }

  lemma TenTimes(m: nat, unit: nat)
    ensures m * (10 * unit) == (10 * m) * unit
  {
  }

  /** The script's conversion keeps the 14 most significant digits, rounded to nearest. */
  lemma ScientificDenotes(n: nat) returns (m: nat, x: nat)
    requires n >= LUA_LIMIT
    ensures x >= 13 && Pow10(13) <= m < Pow10(14) && Nearest(n, m, Pow10(x - 13))
    ensures Scientific(n) == Mantissa(TrimZeros(Print(m))) + "e+" + Print(x)
  {
    var e := Units(n);
    m, x := RoundedOrCarried(n, e);
  }

  function LuaNumber(n: nat): string {
    if n < LUA_LIMIT then Print(n) else Scientific(n)
  }

  // ---- The stored hash value "<sn>\n<blob>" ----

  /** The first position of `c`, or -1. */
  function IndexOf(s: string, c: char): (r: int)
    ensures -1 <= r < |s|
    ensures r >= 0 ==> s[r] == c && c !in s[..r]
    ensures r == -1 ==> c !in s
  {
    if s == "" then -1
    else if s[0] == c then 0
    else
      var r := IndexOf(s[1..], c);
      if r < 0 then -1
      else
        assert s[..r + 1] == [s[0]] + s[1..][..r];
        r + 1
  }

  lemma {:induction false} IndexOfFirst(s: string, c: char, k: nat)
    requires k < |s| && s[k] == c && c !in s[..k]
    ensures IndexOf(s, c) == k
  {
    if k > 0 {
      assert s[0] in s[..k];
      assert s[..k] == [s[0]] + s[1..][..k - 1];
      IndexOfFirst(s[1..], c, k - 1);
    }
  }

  lemma IndexOfSeparator(head: string, tail: string)
    requires '\n' !in head
    ensures IndexOf(head + "\n" + tail, '\n') == |head|
  {
    var s := head + "\n" + tail;
    assert s[..|head|] == head;
    IndexOfFirst(s, '\n', |head|);
  }

  function ParseField(v: string): Option<(nat, Blob)> {
    var nl := IndexOf(v, '\n');
    if nl < 0 then None else Some((ParseUint(v[..nl]), v[nl + 1..]))
  }

  /** A field that has no newline is malformed; otherwise the first one separates number
      and blob, whatever the blob holds. */
  lemma ParseFieldIff(v: string, n: nat, blob: Blob)
    ensures ParseField(v).None? <==> '\n' !in v
    ensures ParseField(v) == Some((n, blob))
            <==> exists head :: v == head + "\n" + blob && '\n' !in head && ParseUint(head) == n
  {
    var nl := IndexOf(v, '\n');
    if nl >= 0 {
      assert v == v[..nl] + "\n" + v[nl + 1..];
      forall head, tail | v == head + "\n" + tail && '\n' !in head
        ensures head == v[..nl] && tail == v[nl + 1..]
      {
        IndexOfSeparator(head, tail);
      }
    }
  }

  /** Printing and parsing a stored shape is the identity for every 64-bit number and
      every blob, including blobs that contain newlines themselves. */
  lemma FieldRoundTrip(n: nat, blob: Blob)
    requires n < TWO_64
    ensures ParseField(Print(n) + "\n" + blob) == Some((n, blob))
  {
    IndexOfSeparator(Print(n), blob);
    var v := Print(n) + "\n" + blob;
    assert v[..|Print(n)|] == Print(n);
    assert v[|Print(n)| + 1..] == blob;
    ValueOfPrint(n);
  }

  /** The sequence number survives the script's own printing exactly up to the limit. */
  lemma LuaFieldRoundTripsIffSmall(n: nat, blob: Blob)
    ensures ParseField(LuaNumber(n) + "\n" + blob) == Some((n, blob)) <==> n < LUA_LIMIT
  {
    if n < LUA_LIMIT {
      FieldRoundTrip(n, blob);
    } else {
      var s := Scientific(n);
      ScientificHasExponent(n);
      ScientificOneLine(n);
      IndexOfSeparator(s, blob);
      assert (s + "\n" + blob)[..|s|] == s;
      assert ParseUint(s) == 0;
    }
  }

  lemma ScientificHasExponent(n: nat)
    requires n >= LUA_LIMIT
    ensures exists i :: 0 <= i < |Scientific(n)| && Scientific(n)[i] == 'e'
  {
    var e := |Print(n)| - 1;
    var rounded := RoundHalfEven(n, Pow10(if e < 13 then 0 else e - 13));
    var carried := rounded == LUA_LIMIT;
    var digits := TrimZeros(Print(if carried then LUA_LIMIT / 10 else rounded));
    assert Scientific(n)[|Mantissa(digits)|] == 'e';
  }

  lemma {:induction false} TrimmedDigits(s: string)
    requires AllDigits(s)
    ensures AllDigits(TrimZeros(s))
  {
    if |s| > 1 && s[|s| - 1] == '0' {
      TrimmedDigits(s[..|s| - 1]);
    }
  }

  lemma ScientificOneLine(n: nat)
    requires n >= LUA_LIMIT
    ensures '\n' !in Scientific(n)
  {
    var e := |Print(n)| - 1;
    var rounded := RoundHalfEven(n, Pow10(if e < 13 then 0 else e - 13));
    var carried := rounded == LUA_LIMIT;
    TrimmedDigits(Print(if carried then LUA_LIMIT / 10 else rounded));
    var digits := TrimZeros(Print(if carried then LUA_LIMIT / 10 else rounded));
    assert '\n' !in digits;
    if |digits| > 1 {
      assert '\n' !in digits[..1] + "." + digits[1..];
    }
    assert '\n' !in Print(if carried then e + 1 else e);
  }
}
