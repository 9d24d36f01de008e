/**
 How much of a ring groups numbered in constant steps can use.

 When groups 0, s, 2s, ... arrive in order on a ring of N slots, a group keeps its slot
 for exactly N / gcd(N, s) arrivals.
 */
module Strides {
  import opened Locations
  import opened SeenObjects

  function Gcd(a: nat, b: nat): (g: nat)
    requires a > 0 || b > 0
    ensures g > 0
    decreases b
  {
    if b == 0 then a else Gcd(b, a % b)
  }

  lemma UniqueRemainder(n: nat, a: int, q: int, r: nat)
    requires n > 0 && a == n * q + r && r < n
    ensures a % n == r && a / n == q
  {
    var d := a / n - q;
    assert n * d == r - a % n;
  }

  lemma Cancel(g: nat, a: int, b: int)
    requires g > 0 && g * a == g * b
    ensures a == b
  {
    assert g * (a - b) == 0;
  }

  lemma {:induction false} GcdDivides(a: nat, b: nat) returns (p: nat, q: nat)
    requires a > 0 || b > 0
    ensures a == Gcd(a, b) * p && b == Gcd(a, b) * q
    decreases b
  {
    if b == 0 {
      p, q := 1, 0;
    } else {
      var p', q' := GcdDivides(b, a % b);
      p, q := (a / b) * p' + q', p';
    }
  }

  lemma {:induction false} GcdIsCombination(a: nat, b: nat) returns (x: int, y: int)
    requires a > 0 || b > 0
    ensures x * a + y * b == Gcd(a, b)
    decreases b
  {
    if b == 0 {
      x, y := 1, 0;
    } else {
      var x', y' := GcdIsCombination(b, a % b);
      x, y := y', x' - (a / b) * y';
    }
  }

  lemma Period(n: nat, s: nat) returns (p: nat, q: nat)
    requires n > 0
    ensures p > 0 && n == Gcd(n, s) * p && s == Gcd(n, s) * q && n / Gcd(n, s) == p
  {
    p, q := GcdDivides(n, s);
    UniqueRemainder(Gcd(n, s), n, p, 0);
  }

  lemma ComingBackDivides(n: nat, s: nat, d: nat)
    requires n > 0 && (d * s) % n == 0
    ensures n / Gcd(n, s) > 0 && d % (n / Gcd(n, s)) == 0
  {
    var p, q := Period(n, s);
    var x, y := GcdIsCombination(n, s);
    var m := (d * s) / n;
    assert d * s == n * m;
    ReturnsDivide(n, s, d, Gcd(n, s), p, x, y, m);
  }

  lemma DividingComesBack(n: nat, s: nat, d: nat)
    requires n > 0
    ensures n / Gcd(n, s) > 0 && (d % (n / Gcd(n, s)) == 0 ==> (d * s) % n == 0)
  {
    var p, q := Period(n, s);
    if d % p == 0 {
      assert d == p * (d / p);
      MultiplesReturn(n, s, d, Gcd(n, s), p, q, d / p);
    }
  }

  /** A number of steps comes back to the same slot exactly when N / gcd(N, s) divides it. */
  lemma StepsComeBack(n: nat, s: nat, d: nat)
    requires n > 0
    ensures n / Gcd(n, s) > 0
    ensures (d * s) % n == 0 <==> d % (n / Gcd(n, s)) == 0
  {
    DividingComesBack(n, s, d);
    if (d * s) % n == 0 {
      ComingBackDivides(n, s, d);
    }
  }

  lemma ReturnsDivide(n: nat, s: nat, d: nat, g: nat, p: nat, x: int, y: int, m: nat)
    requires g > 0 && p > 0 && n == g * p && x * n + y * s == g && d * s == n * m
    ensures d % p == 0
  {
    var z := x * d + y * m;
    calc {
      g * d;
      (x * n + y * s) * d;
      (x * n) * d + (y * s) * d;
      { assert (x * n) * d == n * (x * d); assert (y * s) * d == y * (d * s); }
      n * (x * d) + y * (n * m);
      { assert y * (n * m) == n * (y * m); }
      n * z;
      { assert (g * p) * z == g * (p * z); }
      g * (p * z);
    }
    Cancel(g, d, p * z);
    UniqueRemainder(p, d, z, 0);
  }

  lemma MultiplesReturn(n: nat, s: nat, d: nat, g: nat, p: nat, q: nat, m: nat)
    requires n > 0 && n == g * p && s == g * q && d == p * m
    ensures (d * s) % n == 0
  {
    calc {
      d * s;
      (p * m) * (g * q);
      { assert (p * m) * (g * q) == (p * g) * (m * q); }
      n * (m * q);
    }
    UniqueRemainder(n, d * s, m * q, 0);
  }

  /** Two multiples share a slot exactly when the steps between them come back. */
  lemma SameSlot(n: nat, s: nat, j: nat, d: nat)
    requires n > 0
    ensures ((j + d) * s) % n == (j * s) % n <==> (d * s) % n == 0
  {
    var a, b, c := (j + d) * s, j * s, d * s;
    assert a == b + c;
    ShiftedRemainder(n, b, c);
  }

  lemma ShiftedRemainder(n: nat, b: nat, c: nat)
    requires n > 0
    ensures (b + c) % n == b % n <==> c % n == 0
  {
    var a := b + c;
    if a % n == b % n {
      assert c == n * (a / n) - n * (b / n);
      assert c == n * (a / n - b / n);
      UniqueRemainder(n, c, a / n - b / n, 0);
    }
    if c % n == 0 {
      assert n * (b / n) + n * (c / n) == n * (b / n + c / n);
      UniqueRemainder(n, a, b / n + c / n, b % n);
    }
  }

  /** Groups 0, s, ..., k * s, each asked about once. */
  ghost function Strided(s: nat, k: nat): (h: seq<Location>)
    requires k * s <= U64_MAX
    ensures |h| == k + 1 && forall i :: 0 <= i <= k ==> h[i].group == i * s && h[i].id == 0
    decreases k
  {
    if k == 0 then [Location(0, 0)]
    else
      assert (k - 1) * s <= k * s;
      Strided(s, k - 1) + [Location(k * s, 0)]
  }

  /** Group j * s still owns its slot after k * s arrived exactly when k - j < N / gcd(N, s). */
  lemma StridedRetention(n: nat, s: nat, j: nat, k: nat)
    requires n > 0 && s > 0 && j <= k && k * s <= U64_MAX
    ensures j * s <= U64_MAX && n / Gcd(n, s) > 0
    ensures Reported(Strided(s, k), n, Location(j * s, 0)) <==> k - j < n / Gcd(n, s)
  {
    DividingComesBack(n, s, 0);
    if k - j < n / Gcd(n, s) {
      RetainedWithin(n, s, j, k);
    } else {
      EvictedBeyond(n, s, j, k);
    }
  }

  lemma RetainedWithin(n: nat, s: nat, j: nat, k: nat)
    requires n > 0 && s > 0 && j <= k && k * s <= U64_MAX && j * s <= U64_MAX
    requires n / Gcd(n, s) > 0 && k - j < n / Gcd(n, s)
    ensures Reported(Strided(s, k), n, Location(j * s, 0))
  {
    var h := Strided(s, k);
    assert h[j] == Location(j * s, 0);
    forall l | l in h && l.group % n == (j * s) % n ensures l.group <= j * s {
      var i :| 0 <= i <= k && h[i] == l;
      KeepsItsSlot(n, s, j, i);
    }
  }

  lemma EvictedBeyond(n: nat, s: nat, j: nat, k: nat)
    requires n > 0 && s > 0 && j <= k && k * s <= U64_MAX && j * s <= U64_MAX
    requires n / Gcd(n, s) > 0 && k - j >= n / Gcd(n, s)
    ensures !Reported(Strided(s, k), n, Location(j * s, 0))
  {
    var h, p := Strided(s, k), n / Gcd(n, s);
    UniqueRemainder(p, p, 1, 0);
    DividingComesBack(n, s, p);
    SameSlot(n, s, j, p);
    var l := h[j + p];
    assert l in h && l.group > j * s && l.group % n == (j * s) % n;
  }

  lemma KeepsItsSlot(n: nat, s: nat, j: nat, i: nat)
    requires n > 0 && n / Gcd(n, s) > 0 && i - j < n / Gcd(n, s) && (i * s) % n == (j * s) % n
    ensures i * s <= j * s
  {
    if i > j {
      SameSlot(n, s, j, i - j);
      StepsComeBack(n, s, i - j);
      UniqueRemainder(n / Gcd(n, s), i - j, 0, i - j);
      assert false;
    }
  }
}
