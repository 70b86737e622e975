/** Machine-word arithmetic on natural numbers: powers of two, the bitwise
    operators the sources use for masks, and what those masks compute. */
module Bits {

  type byte = x: int | 0 <= x < 256

  function Pow2(k: nat): (p: nat)
    ensures p >= 1
    ensures k > 0 ==> p % 2 == 0
  {
    if k == 0 then 1 else 2 * Pow2(k - 1)
  }

  /** Bitwise `x & y`. */
  function And(x: nat, y: nat): nat
  {
    if x == 0 || y == 0 then 0 else 2 * And(x / 2, y / 2) + (x % 2) * (y % 2)
  }

  /** Bitwise `x ^ y`. */
  function Xor(x: nat, y: nat): nat
    decreases x + y
  {
    if x == 0 then y else if y == 0 then x
    else 2 * Xor(x / 2, y / 2) + (x % 2 + y % 2) % 2
  }

  ghost predicate IsPow2(n: nat) {
    exists k: nat :: n == Pow2(k)
  }

  lemma ModUnique(x: int, m: int, q: int, r: int)
    requires 0 <= r < m && x == q * m + r
    ensures x % m == r && x / m == q
  {
    var d := x / m - q;
    assert x == m * (x / m) + x % m;
    assert d * m == r - x % m by { assert d * m == (x / m) * m - q * m; }
    if d >= 1 {
      MulAtLeast(d, m);
    } else if d <= -1 {
      MulAtLeast(-d, m);
    }
  }

  lemma MulAtLeast(d: int, m: int)
    requires d >= 1 && m >= 0
    ensures d * m >= m
  {
    assert (d - 1) * m >= 0;
  }

  /** Halving commutes with reduction modulo an even number. */
  lemma ModDouble(x: nat, m: nat)
    requires m > 0
    ensures x % (2 * m) == 2 * ((x / 2) % m) + x % 2
  {
    var q := (x / 2) / m;
    var r := 2 * ((x / 2) % m) + x % 2;
    assert x / 2 == m * q + (x / 2) % m;
    assert x == q * (2 * m) + r by { assert q * (2 * m) == 2 * (m * q); }
    ModUnique(x, 2 * m, q, r);
  }

  /** `x & (2^k - 1)` is `x mod 2^k`: the ring-buffer masks of the sources. */
  lemma {:induction false} AndMask(x: nat, k: nat)
    ensures And(x, Pow2(k) - 1) == x % Pow2(k)
  {
    if k == 0 {
      assert x % 1 == 0;
    } else if x == 0 {
    } else {
      var m := Pow2(k - 1);
      assert (Pow2(k) - 1) / 2 == m - 1 && (Pow2(k) - 1) % 2 == 1;
      AndMask(x / 2, k - 1);
      ModDouble(x, m);
    }
  }

  /** `x & ~(2^k - 1)` in an n-bit word rounds `x` down to a multiple of 2^k. */
  lemma {:induction false} AndHighMask(x: nat, k: nat, n: nat)
    requires k <= n && x < Pow2(n)
    ensures Pow2(n) >= Pow2(k)
    ensures And(x, Pow2(n) - Pow2(k)) == x - x % Pow2(k)
  {
    if k == 0 {
      AndMask(x, n);
      ModUnique(x, Pow2(n), 0, x);
    } else {
      AndHighMask(x / 2, k - 1, n - 1);
      var y := Pow2(n) - Pow2(k);
      assert y / 2 == Pow2(n - 1) - Pow2(k - 1) && y % 2 == 0;
      ModDouble(x, Pow2(k - 1));
    }
  }

  lemma {:induction false} AndSelf(x: nat)
    ensures And(x, x) == x
  {
    if x != 0 {
      AndSelf(x / 2);
    }
  }

  /** The test `n && !(n & (n - 1))` recognises exactly the powers of two. */
  lemma {:induction false} PowerTest(n: nat)
    requires n > 0
    ensures And(n, n - 1) == 0 <==> IsPow2(n)
  {
    if n == 1 {
      assert n == Pow2(0);
    } else if n % 2 == 0 {
      PowerTest(n / 2);
      assert (n - 1) / 2 == n / 2 - 1 && (n - 1) % 2 == 1;
      if IsPow2(n / 2) {
        var k: nat :| n / 2 == Pow2(k);
        assert n == Pow2(k + 1);
      }
      if IsPow2(n) {
        var k: nat :| n == Pow2(k);
        assert n / 2 == Pow2(k - 1);
      }
    } else {
      AndSelf(n / 2);
      assert (n - 1) / 2 == n / 2;
      forall k: nat ensures n != Pow2(k) {
      }
    }
  }

  lemma {:induction false} Pow2Add(i: nat, j: nat)
    ensures Pow2(i + j) == Pow2(i) * Pow2(j)
  {
    if i != 0 {
      Pow2Add(i - 1, j);
      assert Pow2(i + j) == 2 * (Pow2(i - 1) * Pow2(j)) == (2 * Pow2(i - 1)) * Pow2(j);
    }
  }

  lemma {:induction false} Pow2Mono(i: nat, j: nat)
    requires i <= j
    ensures Pow2(i) <= Pow2(j)
  {
    if i < j {
      Pow2Mono(i, j - 1);
    }
  }

  /** Reducing modulo a multiple of m first does not change the residue modulo m. */
  lemma ModMod(x: int, m: int, c: int)
    requires m > 0 && c > 0
    ensures m * c > 0 && (x % (m * c)) % m == x % m
  {
    assert m * c > 0 by { MulAtLeast(c, m); }
    var r := x % (m * c);
    var q := x / (m * c);
    assert x == (m * c) * q + r;
    var r' := r % m;
    assert r == m * (r / m) + r';
    assert x == (c * q + r / m) * m + r' by {
      assert (c * q + r / m) * m == (c * q) * m + (r / m) * m;
      assert (c * q) * m == (m * c) * q;
    }
    ModUnique(x, m, c * q + r / m, r');
  }

  /** Two numbers less than c apart have different residues modulo c. */
  lemma ModDiffer(i: int, j: int, c: int)
    requires i < j < i + c
    ensures i % c != j % c
  {
    var a, b := i / c, j / c;
    assert i == c * a + i % c && j == c * b + j % c;
    if i % c == j % c {
      MulDifference(c, a, b);
      if b - a >= 1 {
        MulAtLeast(b - a, c);
      } else {
        MulAtLeast(a - b + 1, c);
      }
    }
  }

  lemma MulDifference(c: int, a: int, b: int)
    ensures c * b - c * a == (b - a) * c == (a - b + 1) * (-c) + c
    ensures (a - b + 1) * (-c) == -((a - b + 1) * c)
  {
  }

  lemma Pow2Constants()
    ensures Pow2(8) == 256 && Pow2(16) == 0x1_0000 && Pow2(24) == 0x100_0000 && Pow2(32) == 0x1_0000_0000
  {
    assert Pow2(4) == 16 by { assert Pow2(2) == 4; }
    Pow2Add(4, 4);
    Pow2Add(8, 8);
    Pow2Add(8, 16);
    Pow2Add(16, 16);
  }

  lemma XorHalf(x: nat, y: nat)
    ensures Xor(x, y) / 2 == Xor(x / 2, y / 2)
    ensures Xor(x, y) % 2 == 0 <==> x % 2 == y % 2
  {
    if x == 0 || y == 0 {
      XorZero(x, y);
    } else {
      XorDigit(x, y, Xor(x, y), Xor(x / 2, y / 2));
    }
  }

  lemma XorZero(x: nat, y: nat)
    requires x == 0 || y == 0
    ensures Xor(x, y) == x + y && Xor(x / 2, y / 2) == x / 2 + y / 2
  {
  }

  lemma XorDigit(x: nat, y: nat, z: nat, q: nat)
    requires z == 2 * q + (x % 2 + y % 2) % 2
    ensures z / 2 == q && (z % 2 == 0 <==> x % 2 == y % 2)
  {
    HalfOf(q, (x % 2 + y % 2) % 2);
  }

  lemma HalfOf(q: nat, b: nat)
    requires b < 2
    ensures (2 * q + b) / 2 == q && (2 * q + b) % 2 == b
  {
  }

  /** The low n bits of `x ^ y` are zero exactly when x and y agree in them. */
  lemma {:induction false} XorLow(x: nat, y: nat, n: nat)
    ensures Xor(x, y) % Pow2(n) == 0 <==> x % Pow2(n) == y % Pow2(n)
  {
    if n > 0 {
      var m := Pow2(n - 1);
      XorHalf(x, y);
      XorLow(x / 2, y / 2, n - 1);
      ModDouble(x, m);
      ModDouble(y, m);
      ModDouble(Xor(x, y), m);
    }
  }

  /** Dropping the lowest bit, of a number cut to n bits. */
  lemma HalfLow(x: nat, k: nat, n: nat)
    requires 0 < k <= n
    ensures (x % Pow2(n)) / Pow2(k) == ((x / 2) % Pow2(n - 1)) / Pow2(k - 1)
  {
    ModDouble(x, Pow2(n - 1));
    var r, m := (x / 2) % Pow2(n - 1), Pow2(k - 1);
    assert x % Pow2(n) == 2 * r + x % 2;
    HalfDivide(r, x % 2, m);
  }

  lemma HalfDivide(r: nat, b: nat, m: nat)
    requires b < 2 && m > 0
    ensures (2 * r + b) / (2 * m) == r / m
  {
    var q := r / m;
    assert r == q * m + r % m;
    assert 2 * r + b == q * (2 * m) + (2 * (r % m) + b) by { assert q * (2 * m) == 2 * (q * m); }
    ModUnique(2 * r + b, 2 * m, q, 2 * (r % m) + b);
  }

  /** `(x ^ y) & ~(2^k - 1)` in an n-bit word is zero exactly when x and y, cut to n
      bits, are in the same window of 2^k. */
  lemma {:induction false} WindowTest(x: nat, y: nat, k: nat, n: nat)
    requires k <= n
    ensures Pow2(n) >= Pow2(k)
    ensures And(Xor(x, y), Pow2(n) - Pow2(k)) == 0 <==> (x % Pow2(n)) / Pow2(k) == (y % Pow2(n)) / Pow2(k)
  {
    Pow2Mono(k, n);
    if k == 0 {
      AndMask(Xor(x, y), n);
      XorLow(x, y, n);
      assert x % Pow2(n) / 1 == x % Pow2(n) && y % Pow2(n) / 1 == y % Pow2(n);
    } else {
      WindowTest(x / 2, y / 2, k - 1, n - 1);
      XorHalf(x, y);
      HalfLow(x, k, n);
      HalfLow(y, k, n);
      AndEven(Xor(x, y), Pow2(n - 1) - Pow2(k - 1));
    }
  }

  lemma AndEven(x: nat, y: nat)
    ensures And(x, 2 * y) == 0 <==> And(x / 2, y) == 0
  {
  }

  lemma {:induction false} SubsetBound(a: set<nat>, n: nat)
    requires forall x :: x in a ==> x < n
    ensures |a| <= n
  {
    if n == 0 {
      assert a == {};
    } else {
      SubsetBound(a - {n - 1}, n - 1);
      if n - 1 in a {
        assert a == (a - {n - 1}) + {n - 1};
      } else {
        assert a == a - {n - 1};
      }
    }
  }

  function Elements(s: seq<nat>): (r: set<nat>)
    ensures forall x :: x in r <==> x in s
  {
    set x | x in s
  }

  lemma {:induction false} DistinctAreMany(s: seq<nat>)
    requires forall i, j :: 0 <= i < j < |s| ==> s[i] != s[j]
    ensures |Elements(s)| == |s|
  {
    if s != [] {
      var m := |s| - 1;
      DistinctAreMany(s[..m]);
      assert s == s[..m] + [s[m]];
      assert Elements(s) == Elements(s[..m]) + {s[m]};
      assert s[m] !in s[..m];
    }
  }

  /** Different numbers below n are at most n. */
  lemma Pigeonhole(s: seq<nat>, n: nat)
    requires forall i :: 0 <= i < |s| ==> s[i] < n
    requires forall i, j :: 0 <= i < j < |s| ==> s[i] != s[j]
    ensures |s| <= n
  {
    DistinctAreMany(s);
    SubsetBound(Elements(s), n);
  }
}
