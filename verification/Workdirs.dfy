/**
 The judges' work directories (`Judge::Judge`, src/judge.cpp): a path printed into a buffer with room
 for three digits. And the numbers `get_result_count` hands out for output files.
 */
module Workdirs {
  function Digit(d: nat): char
    requires d < 10
  {
    (48 + d) as char
  }

  /** `%u`. */
  function Decimal(n: nat): (s: string)
    ensures |s| >= 1
  {
    if n < 10 then [Digit(n)] else Decimal(n / 10) + [Digit(n % 10)]
  }

  /** The number a string of digits stands for. */
  function Value(s: string): int {
    if s == [] then 0 else 10 * Value(s[..|s| - 1]) + (s[|s| - 1] as int - 48)
  }

  /** Printing loses nothing: the number can be read back. */
  lemma {:induction false} ValueDecimal(n: nat)
    ensures Value(Decimal(n)) == n
  {
    if n >= 10 {
      ValueDecimal(n / 10);
      assert Decimal(n)[..|Decimal(n)| - 1] == Decimal(n / 10);
    } else {
      assert Decimal(n)[..0] == [];
    }
  }

  lemma {:induction false} ValueZero(s: string)
    ensures Value("0" + s) == Value(s)
  {
    if s == [] {
      assert ("0" + s)[..0] == [];
    } else {
      assert ("0" + s)[..|s|] == "0" + s[..|s| - 1];
      ValueZero(s[..|s| - 1]);
    }
  }

  function Shorter(s: string, room: nat): string { if |s| <= room then s else s[..room] }

  const JUDGE: string := "/judge"

  /** The buffer holds five bytes more than its fixed part; snprintf is told one less and ends with NUL. */
  function WorkDir(home: string, id: nat): string {
    Shorter(home + JUDGE + Decimal(id), |home| + |JUDGE| + 5 - 1 - 1)
  }

  /** The number is cut off after three digits. */
  lemma WorkDirDigits(home: string, id: nat)
    ensures WorkDir(home, id) == home + "/judge" + (if |Decimal(id)| <= 3 then Decimal(id) else Decimal(id)[..3])
  {
  }

  lemma DecimalShort(id: nat)
    ensures |Decimal(id)| <= 3 <==> id < 1000
  {
    if id >= 100 {
      assert |Decimal(id)| == |Decimal(id / 10)| + 1 && |Decimal(id / 10)| == |Decimal(id / 10 / 10)| + 1;
    }
  }

  /** All judges have different directories exactly up to 1000 of them. */
  lemma WorkDirsExact(home: string, n: nat)
    ensures (forall i: nat, k: nat :: i < k < n ==> WorkDir(home, i) != WorkDir(home, k)) <==> n <= 1000
  {
    if n <= 1000 {
      forall i: nat, k: nat | i < k < n ensures WorkDir(home, i) != WorkDir(home, k) {
        WorkDirsDiffer(home, i, k);
      }
    } else {
      WorkDirDigits(home, 100);
      WorkDirDigits(home, 1000);
      assert Decimal(1000) == Decimal(100) + "0";
      assert |Decimal(100)| == 3;
    }
  }

  lemma WorkDirsDiffer(home: string, i: nat, k: nat)
    requires i < 1000 && k < 1000 && i != k
    ensures WorkDir(home, i) != WorkDir(home, k)
  {
    WorkDirDigits(home, i);
    WorkDirDigits(home, k);
    DecimalShort(i);
    DecimalShort(k);
    var prefix := home + JUDGE;
    if WorkDir(home, i) == WorkDir(home, k) {
      assert (prefix + Decimal(i))[|prefix|..] == Decimal(i);
      assert (prefix + Decimal(k))[|prefix|..] == Decimal(k);
      ValueDecimal(i);
      ValueDecimal(k);
    }
  }

  // ---------- result counter ----------

  const WRAP := 1000000
  const WINDOW := 100000

  /** `get_result_count`, one call after another. */
  class ResultCounter {
    var count: nat

    ghost predicate Valid()
      reads this
    {
      count < WRAP
    }

    constructor ()
      ensures Valid() && count == 0
    {
      count := 0;
    }

    method Next() returns (n: nat)
      requires Valid()
      modifies this
      ensures Valid() && n == count == Nth(old(count), 1) == (old(count) + 1) % 1000000
    {
      count := (count + 1) % WRAP;
      n := count;
    }
  }

  /** What the `i`-th call from now returns. */
  function Nth(count: nat, i: nat): nat {
    if i == 0 then count else (Nth(count, i - 1) + 1) % WRAP
  }

  lemma {:induction false} NthClosed(count: nat, i: nat)
    requires count < WRAP
    ensures Nth(count, i) == (count + i) % WRAP
  {
    if i > 0 {
      NthClosed(count, i - 1);
      var x := count + (i - 1);
      var q := x / WRAP;
      assert x == WRAP * q + x % WRAP;
      if x % WRAP == WRAP - 1 {
        WrapRemainder(q + 1, 0);
      } else {
        WrapRemainder(q, x % WRAP + 1);
      }
    } else {
      WrapRemainder(0, count);
    }
  }

  lemma WrapRemainder(q: nat, r: nat)
    requires r < WRAP
    ensures (WRAP * q + r) % WRAP == r
  {
  }

  lemma WindowRemainder(q: nat, r: nat)
    requires r < WINDOW
    ensures (WINDOW * q + r) % WINDOW == r
  {
  }

  /** `%04u`: padded with zeros to four digits. */
  function Padded(n: nat): string {
    if n < 10 then "0" + ("0" + ("0" + Decimal(n)))
    else if n < 100 then "0" + ("0" + Decimal(n))
    else if n < 1000 then "0" + Decimal(n)
    else Decimal(n)
  }

  /** At least four digits, and as many more as the number needs. */
  lemma ValuePadded(n: nat)
    ensures Value(Padded(n)) == n
    ensures |Padded(n)| >= 4 && (n >= 1000 ==> Padded(n) == Decimal(n))
  {
    ValueDecimal(n);
    ValueZero(Decimal(n));
    ValueZero("0" + Decimal(n));
    ValueZero("0" + ("0" + Decimal(n)));
  }

  function Suffix(count: nat, i: nat): string { Padded(Nth(count, i) % WINDOW) }

  /** Two of the calls get the same suffix exactly if they are a multiple of 100000 calls apart,
      wherever the counter stands and whether or not it wraps in between. */
  lemma SuffixesExact(count: nat, i: nat, k: nat)
    requires count < WRAP && i <= k
    ensures Suffix(count, i) == Suffix(count, k) <==> (k - i) % 100000 == 0
  {
    hide Nth, Padded;
    NthClosed(count, i);
    NthClosed(count, k);
    var a, b := count + i, count + k;
    RemainderTwice(a);
    RemainderTwice(b);
    RemainderDifference(a, b);
    ValuePadded(a % WINDOW);
    ValuePadded(b % WINDOW);
  }

  lemma RemainderTwice(x: nat)
    ensures x % WRAP % WINDOW == x % WINDOW
  {
    var q, y := x / WRAP, x % WRAP;
    assert x == WRAP * q + y && y == WINDOW * (y / WINDOW) + y % WINDOW;
    assert x == WINDOW * (10 * q + y / WINDOW) + y % WINDOW;
    WindowRemainder(10 * q + y / WINDOW, y % WINDOW);
  }

  lemma RemainderDifference(a: nat, b: nat)
    requires a <= b
    ensures a % WINDOW == b % WINDOW <==> (b - a) % WINDOW == 0
  {
    assert b - a == WINDOW * (b / WINDOW - a / WINDOW) + (b % WINDOW - a % WINDOW);
  }

  /** So any 100000 calls in a row name 100000 different files. */
  lemma WindowDistinct(count: nat, from: nat)
    requires count < 1000000
    ensures forall i: nat, k: nat :: from <= i < k < from + 100000 ==> Suffix(count, i) != Suffix(count, k)
  {
    forall i: nat, k: nat | from <= i < k < from + WINDOW ensures Suffix(count, i) != Suffix(count, k) {
      SuffixesExact(count, i, k);
    }
  }
}
