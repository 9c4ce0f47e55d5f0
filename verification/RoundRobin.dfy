/** The turns of a weighted round robin: a counter that steps through 0 .. W-1, and shares
    laid end to end on those W places. */
module RoundRobin {
  import opened Sums


  /** Where share `k` starts. */
  function Start(shares: seq<nat>, k: nat): nat
    requires k <= |shares|
  {
    if k == 0 then 0 else Start(shares, k - 1) + shares[k - 1]
  }

  function Whole(shares: seq<nat>): nat { Start(shares, |shares|) }

  /** The share that place `r` belongs to. */
  function Owner(shares: seq<nat>, r: nat): (k: nat)
    requires r < Whole(shares)
    ensures k < |shares| && Start(shares, k) <= r < Start(shares, k + 1)
  {
    OwnerFrom(shares, r, 0)
  }

  function OwnerFrom(shares: seq<nat>, r: nat, from: nat): (k: nat)
    requires from <= |shares| && Start(shares, from) <= r < Whole(shares)
    ensures from <= k < |shares| && Start(shares, k) <= r < Start(shares, k + 1)
    decreases |shares| - from
  {
    if r < Start(shares, from + 1) then from else OwnerFrom(shares, r, from + 1)
  }

  lemma {:induction false} StartMonotone(shares: seq<nat>, j: nat, k: nat)
    requires j <= k <= |shares|
    ensures Start(shares, j) <= Start(shares, k)
    decreases k
  {
    if j < k {
      StartMonotone(shares, j, k - 1);
    }
  }

  /** A place has one owner. */
  lemma {:induction false} OwnerIff(shares: seq<nat>, r: nat, k: nat)
    requires r < Whole(shares) && k < |shares|
    ensures Owner(shares, r) == k <==> Start(shares, k) <= r < Start(shares, k) + shares[k]
  {
    var o := Owner(shares, r);
    if o < k {
      StartMonotone(shares, o + 1, k);
    } else if k < o {
      StartMonotone(shares, k + 1, o);
    }
  }

  // ----- counting places modulo W ---------------------------------------------------

  /** The remainder, by repeated subtraction. */
  function Mod(x: nat, w: nat): (r: nat)
    requires w > 0
    ensures r < w
  {
    if x < w then x else Mod(x - w, w)
  }

  lemma {:induction false} ModIsRemainder(x: nat, w: nat)
    requires w > 0
    ensures Mod(x, w) == x % w
    decreases x
  {
    if x >= w {
      ModIsRemainder(x - w, w);
      var q, r := (x - w) / w, (x - w) % w;
      assert x == w * (q + 1) + r;
      RemainderUnique(x, w, q + 1, r);
    }
  }

  lemma {:induction false} RemainderUnique(x: int, w: int, q: int, r: int)
    requires w > 0 && x == w * q + r && 0 <= r < w
    ensures x % w == r
  {
    var d := x / w - q;
    assert w * d == r - x % w;
    if d >= 1 { Multiply(w, 1, d); }
    if d <= -1 { Multiply(w, d, -1); }
  }

  /** How many of a+1 .. a+n fall on the places lo .. hi-1 modulo w. */
  ghost function Hits(a: nat, n: nat, w: nat, lo: nat, hi: nat): nat
    requires w > 0
  {
    if n == 0 then 0 else Hits(a, n - 1, w, lo, hi) + Hit(a + n, w, lo, hi)
  }

  ghost function Hit(x: nat, w: nat, lo: nat, hi: nat): nat
    requires w > 0
  {
    if lo <= Mod(x, w) < hi then 1 else 0
  }

  /** The counter after one more step. */
  lemma {:induction false} NextMod(x: nat, w: nat)
    requires w > 0
    ensures Mod(x + 1, w) == Mod(Mod(x, w) + 1, w)
    decreases x
  {
    if x >= w {
      NextMod(x - w, w);
    }
  }

  lemma {:induction false} HitsSplit(a: nat, n: nat, m: nat, w: nat, lo: nat, hi: nat)
    requires w > 0
    ensures Hits(a, n + m, w, lo, hi) == Hits(a, n, w, lo, hi) + Hits(a + n, m, w, lo, hi)
    ensures Hits(a, m, w, lo, hi) <= m
    decreases m
  {
    if m > 0 {
      HitsSplit(a, n, m - 1, w, lo, hi);
    }
  }

  lemma {:induction false} FirstCycle(n: nat, w: nat, lo: nat, hi: nat)
    requires w > 0 && n <= w && lo <= hi <= w
    ensures Hits(w - 1, n, w, lo, hi) == if n <= lo then 0 else if n <= hi then n - lo else hi - lo
    decreases n
  {
    if n > 0 {
      FirstCycle(n - 1, w, lo, hi);
      assert Mod(w - 1 + n, w) == Mod(n - 1, w) == n - 1;
      assert w - 1 + n == (n - 1) + w;
    }
  }

  /** One full turn, started anywhere, visits every place once. */
  lemma {:induction false} FullTurn(a: nat, w: nat, lo: nat, hi: nat)
    requires w > 0 && lo <= hi <= w
    ensures Hits(a, w, w, lo, hi) == hi - lo
    decreases if a < w - 1 then w - 1 - a else a - (w - 1)
  {
    if a == w - 1 {
      FirstCycle(w, w, lo, hi);
    } else {
      var b := if a < w - 1 then a else a - 1;
      HitsSplit(b, 1, w, w, lo, hi);
      assert Hits(b, 1, w, lo, hi) == Hits(b, 0, w, lo, hi) + Hit(b + 1, w, lo, hi);
      assert Hit(b + 1 + w, w, lo, hi) == Hit(b + 1, w, lo, hi);
      assert Hits(b, 1 + w, w, lo, hi) == Hits(b, w, w, lo, hi) + Hit(b + 1 + w, w, lo, hi);
      if a < w - 1 { FullTurn(a + 1, w, lo, hi); } else { FullTurn(a - 1, w, lo, hi); }
    }
  }

  lemma {:induction false} Product(q: nat, w: nat)
    ensures q * w >= 0
  {
  }

  lemma {:induction false} FullTurns(a: nat, q: nat, w: nat, lo: nat, hi: nat)
    requires w > 0 && lo <= hi <= w && q * w >= 0
    ensures Hits(a, q * w, w, lo, hi) == q * (hi - lo)
    decreases q
  {
    hide Mod, Hits;
    if q == 0 {
      NoTurns(a, w, lo, hi);
    } else {
      Product(q - 1, w);
      FullTurns(a, q - 1, w, lo, hi);
      OneMoreTime(q, w);
      OneMoreTime(q, hi - lo);
      OneMoreTurn(a, (q - 1) * w, w, lo, hi);
    }
  }

  lemma {:induction false} NoTurns(a: nat, w: nat, lo: nat, hi: nat)
    requires w > 0
    ensures Hits(a, 0, w, lo, hi) == 0
  {
  }

  lemma {:induction false} OneMoreTurn(a: nat, n: nat, w: nat, lo: nat, hi: nat)
    requires w > 0 && lo <= hi <= w
    ensures Hits(a, n + w, w, lo, hi) == Hits(a, n, w, lo, hi) + hi - lo
  {
    HitsSplit(a, n, w, w, lo, hi);
    FullTurn(a + n, w, lo, hi);
  }

  /** q full turns and r steps give places lo .. hi-1 their share q times, and at most once
      more. */
  lemma {:induction false} TurnsAndRest(a: nat, q: nat, r: nat, w: nat, lo: nat, hi: nat)
    requires w > 0 && r < w && lo <= hi <= w
    ensures q * (hi - lo) <= Hits(a, q * w + r, w, lo, hi) <= q * (hi - lo) + (if r == 0 then 0 else hi - lo)
  {
    Product(q, w);
    FullTurns(a, q, w, lo, hi);
    AndRest(a, q * w, r, w, lo, hi);
  }

  lemma {:induction false} AndRest(a: nat, n: nat, r: nat, w: nat, lo: nat, hi: nat)
    requires w > 0 && r < w && lo <= hi <= w
    ensures Hits(a, n, w, lo, hi) <= Hits(a, n + r, w, lo, hi)
    ensures Hits(a, n + r, w, lo, hi) <= Hits(a, n, w, lo, hi) + (if r == 0 then 0 else hi - lo)
  {
    HitsSplit(a, n, r, w, lo, hi);
    HitsSplit(a + n, r, w - r, w, lo, hi);
    FullTurn(a + n, w, lo, hi);
  }

  /** Places that number s are never all missed in w - s + 1 steps. */
  lemma {:induction false} NoStarvation(a: nat, w: nat, lo: nat, hi: nat)
    requires w > 0 && lo < hi <= w
    ensures Hits(a, w - (hi - lo) + 1, w, lo, hi) >= 1
  {
    var s := hi - lo;
    FullTurn(a, w, lo, hi);
    HitsSplit(a, w - s + 1, s - 1, w, lo, hi);
    HitsSplit(a + (w - s + 1), 0, s - 1, w, lo, hi);
  }

  // ----- the same, share by share ---------------------------------------------------

  /** Share k gets its places q times in q turns, and at most once more in the rest. */
  lemma {:induction false} ShareOfTurns(shares: seq<nat>, k: nat, a: nat, n: nat, q: nat, r: nat)
    requires k < |shares| && r < Whole(shares) && n == q * Whole(shares) + r
    ensures q * shares[k] <= Hits(a, n, Whole(shares), Start(shares, k), Start(shares, k + 1))
    ensures Hits(a, n, Whole(shares), Start(shares, k), Start(shares, k + 1))
         <= q * shares[k] + (if r == 0 then 0 else shares[k])
  {
    StartMonotone(shares, k + 1, |shares|);
    var lo, hi := Start(shares, k), Start(shares, k + 1);
    assert hi - lo == shares[k];
    TurnsAndRest(a, q, r, Whole(shares), lo, hi);
  }

  lemma {:induction false} ShareIsServed(shares: seq<nat>, k: nat, a: nat)
    requires k < |shares| && shares[k] > 0
    ensures shares[k] <= Whole(shares)
    ensures Whole(shares) > 0
    ensures Hits(a, Whole(shares) - shares[k] + 1, Whole(shares), Start(shares, k), Start(shares, k + 1)) >= 1
  {
    StartMonotone(shares, k + 1, |shares|);
    NoStarvation(a, Whole(shares), Start(shares, k), Start(shares, k + 1));
  }
}
