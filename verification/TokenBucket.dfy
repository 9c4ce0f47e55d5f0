/** The token bucket of the Redis script (internal/ratelimit/limiter.go:112-135), one key.

    Times are milliseconds and levels are thousandths of a token, so a rate of `rate`
    tokens a second is `rate` units a millisecond and every quantity of the script is an
    exact integer. */
module TokenBucket {
  import opened Sums

  const TOKEN: int := 1000      // one token, in units
  const EXPIRY: int := 2000     // EXPIRE key 2, in milliseconds

  datatype Bucket = Bucket(tokens: int, ts: int)

  function Min(a: int, b: int): int { if a < b then a else b }
  function Max(a: int, b: int): int { if a < b then b else a }

  /** The level the script decides on: what is stored, refilled up to `burst`. */
  function Refilled(slot: Option<Bucket>, rate: int, burst: int, now: int): int {
    var b := if slot.None? then Bucket(TOKEN * burst, now) else slot.value;
    Min(TOKEN * burst, b.tokens + Max(0, now - b.ts) * rate)
  }

  function Admit(slot: Option<Bucket>, rate: int, burst: int, now: int): bool {
    Refilled(slot, rate, burst, now) >= TOKEN
  }

  /** The hash that the script writes back. */
  function Stored(slot: Option<Bucket>, rate: int, burst: int, now: int): Bucket {
    var level := Refilled(slot, rate, burst, now);
    Bucket(if level >= TOKEN then level - TOKEN else level, now)
  }

  /** What the script finds under its key. The entry may have expired, but only once its
      lifetime has passed since it was last written. */
  function Seen(slot: Option<Bucket>, now: int, forget: bool): Option<Bucket> {
    if forget && slot.Some? && now - slot.value.ts >= EXPIRY then None else slot
  }

  /** One evaluation of the script; `forget` says that an entry past its lifetime is gone. */
  datatype Call = Call(now: int, forget: bool)

  /** The calls that one key receives, from the first on. */
  datatype Run = Run(rate: int, burst: int, calls: seq<Call>) {

    ghost predicate Valid() { rate >= 1 && burst >= 1 }

    /** What is stored before call `n`. */
    ghost function Slot(n: nat): Option<Bucket>
      requires n <= |calls|
      decreases n, 0
    {
      if n == 0 then None else
      Some(Stored(Found(n - 1), rate, burst, calls[n - 1].now))
    }

    ghost function Found(n: nat): Option<Bucket>
      requires n < |calls|
      decreases n, 1
    {
      Seen(Slot(n), calls[n].now, calls[n].forget)
    }

    ghost function Level(n: nat): int
      requires n < |calls|
    {
      Refilled(Found(n), rate, burst, calls[n].now)
    }

    ghost predicate Admits(n: nat)
      requires n < |calls|
    {
      Admit(Found(n), rate, burst, calls[n].now)
    }

    /** How many of the calls i .. j-1 are admitted. */
    ghost function Admitted(i: nat, j: nat): nat
      requires i <= j <= |calls|
      decreases j
    {
      if i == j then 0 else Admitted(i, j - 1) + (if Admits(j - 1) then 1 else 0)
    }

    /** How far the clock moves forward from call i to call j; its steps back are not
        subtracted. */
    ghost function Travel(i: nat, j: nat): int
      requires i <= j < |calls|
      decreases j
    {
      if i == j then 0 else Travel(i, j - 1) + Max(0, calls[j].now - calls[j - 1].now)
    }

    ghost predicate Monotone() {
      forall i, j :: 0 <= i < j < |calls| ==> calls[i].now <= calls[j].now
    }

    /** What a window that starts full at call i still allows when call n arrives. */
    ghost function Budget(i: nat, n: nat): int
      requires i <= n < |calls|
    {
      TOKEN * burst + rate * Travel(i, n) - TOKEN * Admitted(i, n)
    }

    /** The documented bound on every window of calls: the burst plus the fill rate. */
    ghost predicate KeepsRate() {
      forall i, j :: 0 <= i < j <= |calls| ==>
        TOKEN * Admitted(i, j) <= TOKEN * burst + rate * Travel(i, j - 1)
    }
  }

  // ----- the clock ------------------------------------------------------------------

  lemma {:induction false} TravelIsElapsed(r: Run, i: nat, j: nat)
    requires i <= j < |r.calls| && r.Monotone()
    ensures r.Travel(i, j) == r.calls[j].now - r.calls[i].now
    decreases j
  {
    if i < j {
      TravelIsElapsed(r, i, j - 1);
    }
  }

  // ----- levels stay between empty and full -----------------------------------------

  lemma {:induction false} LevelInRange(r: Run, n: nat)
    requires r.Valid() && n <= |r.calls|
    ensures r.Slot(n).Some? ==> 0 <= r.Slot(n).value.tokens <= TOKEN * r.burst
    ensures n > 0 ==> r.Slot(n).Some? && r.Slot(n).value.ts == r.calls[n - 1].now
    ensures n < |r.calls| ==> 0 <= r.Level(n) <= TOKEN * r.burst
    decreases n
  {
    if n > 0 {
      LevelInRange(r, n - 1);
    }
    if n < |r.calls| && r.Found(n).Some? {
      Multiply(Max(0, r.calls[n].now - r.Found(n).value.ts), 0, r.rate);
    }
  }

  /** What a run has done does not depend on the calls still to come. */
  lemma {:induction false} PrefixStable(r: Run, c: Call, i: nat, n: nat)
    requires i <= n <= |r.calls|
    ensures var s := r.(calls := r.calls + [c]);
            && s.Slot(n) == r.Slot(n)
            && s.Admitted(i, n) == r.Admitted(i, n)
            && (n < |r.calls| ==> s.Travel(i, n) == r.Travel(i, n))
    decreases n
  {
    if i < n {
      PrefixStable(r, c, i, n - 1);
    } else if 0 < n {
      PrefixStable(r, c, n - 1, n - 1);
    }
  }

  // ----- every rate and every burst -------------------------------------------------

  /** One call spends at most what refilling at max(2 rate, burst) / 2 brings: expiry
      after two seconds acts like a refill of the whole burst. */
  lemma {:induction false} OneCall(r: Run, n: nat, m: int)
    requires r.Valid() && 0 < n < |r.calls| && m == Max(2 * r.rate, r.burst)
    ensures 2 * r.Level(n) <= 2 * r.Slot(n).value.tokens + m * Max(0, r.calls[n].now - r.calls[n - 1].now)
  {
    LevelInRange(r, n);
    var gap := Max(0, r.calls[n].now - r.calls[n - 1].now);
    if r.Found(n).None? {
      Multiply(gap, r.burst, m);
      Multiply(r.burst, EXPIRY, gap);
    } else {
      Multiply(gap, 2 * r.rate, m);
      assert 2 * (gap * r.rate) == 2 * r.rate * gap;
    }
  }

  /** Admitting takes one token out of the level. */
  lemma {:induction false} Spends(r: Run, i: nat, n: nat)
    requires r.Valid() && i <= n < |r.calls|
    ensures TOKEN * r.Admitted(i, n + 1) + r.Slot(n + 1).value.tokens == TOKEN * r.Admitted(i, n) + r.Level(n)
  {
  }

  lemma {:induction false} TravelTimes(r: Run, i: nat, n: nat, m: int)
    requires i < n < |r.calls|
    ensures m * r.Travel(i, n) == m * r.Travel(i, n - 1) + m * Max(0, r.calls[n].now - r.calls[n - 1].now)
  {
    var before, gap := r.Travel(i, n - 1), Max(0, r.calls[n].now - r.calls[n - 1].now);
    assert m * (before + gap) == m * before + m * gap;
  }

  lemma {:induction false} SpentPlusLeft(r: Run, i: nat, j: nat, m: int)
    requires r.Valid() && i < j <= |r.calls| && m == Max(2 * r.rate, r.burst)
    ensures 2 * TOKEN * r.Admitted(i, j) + 2 * r.Slot(j).value.tokens
         <= 2 * TOKEN * r.burst + m * r.Travel(i, j - 1)
    decreases j
  {
    Spends(r, i, j - 1);
    if i < j - 1 {
      SpentPlusLeft(r, i, j - 1, m);
      OneCall(r, j - 1, m);
      TravelTimes(r, i, j - 1, m);
    } else {
      LevelInRange(r, i);
    }
  }

  /** In any window, for any clock and whatever expires, a key admits at most its burst
      plus max(rate, burst / 2) a second of clock travel. */
  lemma {:induction false} WindowBound(r: Run, i: nat, j: nat)
    requires r.Valid() && i < j <= |r.calls|
    ensures 2 * TOKEN * r.Admitted(i, j)
         <= 2 * TOKEN * r.burst + Max(2 * r.rate, r.burst) * r.Travel(i, j - 1)
  {
    SpentPlusLeft(r, i, j, Max(2 * r.rate, r.burst));
    LevelInRange(r, j);
  }

  // ----- bursts that refill within the lifetime -------------------------------------

  /** When the burst refills within two seconds, an expired entry is a full one. */
  lemma {:induction false} ExpiryIsInvisible(r: Run, n: nat)
    requires r.Valid() && r.burst <= 2 * r.rate && n < |r.calls|
    ensures r.Level(n) == Refilled(r.Slot(n), r.rate, r.burst, r.calls[n].now)
  {
    LevelInRange(r, n);
    if r.Found(n) != r.Slot(n) {
      var gap := r.calls[n].now - r.Slot(n).value.ts;
      Multiply(r.rate, EXPIRY, gap);
    }
  }

  /** The expiring bucket decides as one that never expires, whatever moments of expiry
      are chosen. */
  lemma {:induction false} SameDecisions(r: Run, s: Run, n: nat)
    requires r.Valid() && r.burst <= 2 * r.rate
    requires s.rate == r.rate && s.burst == r.burst && |s.calls| == |r.calls|
    requires forall k :: 0 <= k < |r.calls| ==> s.calls[k].now == r.calls[k].now && !s.calls[k].forget
    requires n < |r.calls|
    ensures r.Slot(n) == s.Slot(n) && r.Level(n) == s.Level(n)
    ensures r.Admits(n) <==> s.Admits(n)
    decreases n
  {
    if n > 0 {
      SameDecisions(r, s, n - 1);
    }
    ExpiryIsInvisible(r, n);
  }

  /** What the level and every open budget change by from one call to the next. */
  ghost function Change(r: Run, n: nat): int
    requires 0 < n < |r.calls|
  {
    r.rate * Max(0, r.calls[n].now - r.calls[n - 1].now) - (if r.Admits(n - 1) then TOKEN else 0)
  }

  lemma {:induction false} LevelStep(r: Run, n: nat) returns (change: int)
    requires r.Valid() && r.burst <= 2 * r.rate && 0 < n < |r.calls|
    ensures change == Change(r, n) && r.Level(n) == Min(TOKEN * r.burst, r.Level(n - 1) + change)
  {
    change := Change(r, n);
    ExpiryIsInvisible(r, n);
    var gap := Max(0, r.calls[n].now - r.calls[n - 1].now);
    assert gap * r.rate == r.rate * gap;
  }

  lemma {:induction false} BudgetStep(r: Run, i: nat, n: nat)
    requires i < n < |r.calls|
    ensures r.Budget(i, n) == r.Budget(i, n - 1) + Change(r, n)
  {
    TravelTimes(r, i, n, r.rate);
    assert r.Admitted(i, n) == r.Admitted(i, n - 1) + (if r.Admits(n - 1) then 1 else 0);
  }

  /** The level before a call is the least budget over all windows that end there. */
  lemma {:induction false} LevelIsLeastBudget(r: Run, n: nat) returns (tight: nat)
    requires r.Valid() && r.burst <= 2 * r.rate && n < |r.calls|
    ensures forall i :: 0 <= i <= n ==> r.Level(n) <= r.Budget(i, n)
    ensures tight <= n && r.Level(n) == r.Budget(tight, n)
    decreases n
  {
    LevelInRange(r, n);
    tight := n;
    if n > 0 {
      var before := LevelIsLeastBudget(r, n - 1);
      var change := LevelStep(r, n);
      forall i | 0 <= i < n
        ensures r.Budget(i, n) == r.Budget(i, n - 1) + change
      {
        BudgetStep(r, i, n);
      }
      if r.Level(n) < TOKEN * r.burst {
        tight := before;
      }
    }
  }

  /** A call is refused exactly when admitting it would break burst + rate * time on some
      window that ends there. */
  lemma {:induction false} RefusedExactly(r: Run, n: nat)
    requires r.Valid() && r.burst <= 2 * r.rate && n < |r.calls|
    ensures !r.Admits(n) <==>
            exists i :: 0 <= i <= n
                     && TOKEN * (r.Admitted(i, n) + 1) > TOKEN * r.burst + RateTimes(r, i, n)
  {
    var tight := LevelIsLeastBudget(r, n);
    if !r.Admits(n) {
      assert TOKEN * (r.Admitted(tight, n) + 1) > TOKEN * r.burst + RateTimes(r, tight, n);
    }
    forall i | 0 <= i <= n && TOKEN * (r.Admitted(i, n) + 1) > TOKEN * r.burst + RateTimes(r, i, n)
      ensures !r.Admits(n)
    {
      assert r.Budget(i, n) < TOKEN;
    }
  }

  ghost function RateTimes(r: Run, i: nat, n: nat): int
    requires i <= n < |r.calls|
  {
    r.rate * r.Travel(i, n)
  }

  // ----- when the documented bound holds --------------------------------------------

  lemma {:induction false} SmallBurstKeepsRate(r: Run)
    requires r.Valid() && r.burst <= 2 * r.rate
    ensures r.KeepsRate()
  {
    hide Run.Admitted, Run.Travel;
    forall i, j | 0 <= i < j <= |r.calls|
      ensures TOKEN * r.Admitted(i, j) <= TOKEN * r.burst + r.rate * r.Travel(i, j - 1)
    {
      WindowBound(r, i, j);
      assert 2 * r.rate * r.Travel(i, j - 1) == 2 * (r.rate * r.Travel(i, j - 1));
    }
  }

  /** `burst` calls at time 0, then `burst` more two seconds later, the entry expired. */
  ghost function TwoBursts(rate: int, burst: nat): Run {
    Run(rate, burst, seq(2 * burst, k requires 0 <= k < 2 * burst =>
      if k < burst then Call(0, false) else Call(EXPIRY, true)))
  }

  lemma {:induction false} TwoBurstsAllAdmitted(rate: int, burst: nat, n: nat)
    requires rate >= 1 && burst >= 1 && n <= 2 * burst
    ensures TwoBursts(rate, burst).Admitted(0, n) == n
    ensures n > 0 ==> TwoBursts(rate, burst).Slot(n).value.tokens
                      == TOKEN * (if n <= burst then burst - n else 2 * burst - n)
    decreases n
  {
    var r := TwoBursts(rate, burst);
    if n > 0 {
      TwoBurstsAllAdmitted(rate, burst, n - 1);
      LevelInRange(r, n - 1);
      var k := n - 1;
      if k == 0 || k == burst {
        assert r.Found(k).None?;
      } else {
        assert r.Found(k) == r.Slot(k);
        assert r.calls[k].now == r.calls[k - 1].now;
      }
      assert r.Admits(k);
    }
  }

  lemma {:induction false} TwoBurstsBreakRate(rate: int, burst: int)
    requires rate >= 1 && burst > 2 * rate
    ensures TwoBursts(rate, burst).Monotone() && !TwoBursts(rate, burst).KeepsRate()
  {
    var r := TwoBursts(rate, burst);
    TwoBurstsAllAdmitted(rate, burst, 2 * burst);
    assert r.Monotone();
    TravelIsElapsed(r, 0, 2 * burst - 1);
    assert r.Travel(0, 2 * burst - 1) == EXPIRY;
    hide Run.Admitted, Run.Travel;
    assert r.rate * r.Travel(0, 2 * burst - 1) == r.rate * EXPIRY;
    assert TOKEN * r.Admitted(0, 2 * burst) > TOKEN * r.burst + r.rate * r.Travel(0, 2 * burst - 1);
  }

  /** The documented bound holds of every run exactly when the burst is at most twice the
      rate; a larger burst comes back whole when the entry expires. */
  lemma {:induction false} RateBoundIff(rate: int, burst: int)
    requires rate >= 1 && burst >= 1
    ensures (forall calls: seq<Call> :: Run(rate, burst, calls).Monotone() ==> Run(rate, burst, calls).KeepsRate())
            <==> burst <= 2 * rate
  {
    if burst <= 2 * rate {
      forall calls: seq<Call> | Run(rate, burst, calls).Monotone()
        ensures Run(rate, burst, calls).KeepsRate()
      {
        SmallBurstKeepsRate(Run(rate, burst, calls));
      }
    } else {
      TwoBurstsBreakRate(rate, burst);
      var calls := TwoBursts(rate, burst).calls;
      assert Run(rate, burst, calls) == TwoBursts(rate, burst);
    }
  }

  // ----- a clock that steps back ----------------------------------------------------

  /** From one call to the next the clock steps back at most `d`. */
  ghost predicate StepsBack(calls: seq<Call>, d: int) {
    forall n :: 0 < n < |calls| ==> calls[n - 1].now - d <= calls[n].now
  }

  /** All readings of the calls i .. j-1 lie between the two. */
  ghost predicate Spans(r: Run, i: nat, j: nat, lo: int, hi: int)
    requires i <= j <= |r.calls|
  {
    forall n :: i <= n < j ==> lo <= r.calls[n].now <= hi
  }

  /** The documented bound, with the time that passes on the clock's face. */
  ghost predicate KeepsSpan(r: Run) {
    forall i, j, lo, hi :: 0 <= i < j <= |r.calls| && Spans(r, i, j, lo, hi) ==> WithinSpan(r, i, j, lo, hi)
  }

  ghost predicate WithinSpan(r: Run, i: nat, j: nat, lo: int, hi: int)
    requires i <= j <= |r.calls|
  {
    TOKEN * r.Admitted(i, j) <= TOKEN * r.burst + r.rate * (hi - lo)
  }

  lemma {:induction false} NoStepsBack(calls: seq<Call>, i: nat, j: nat)
    requires StepsBack(calls, 0) && i <= j < |calls|
    ensures calls[i].now <= calls[j].now
    decreases j
  {
    if i < j {
      NoStepsBack(calls, i, j - 1);
      assert calls[j - 1].now - 0 <= calls[j].now;
    }
  }

  lemma {:induction false} MonotoneKeepsSpan(r: Run)
    requires r.Valid() && r.burst <= 2 * r.rate && StepsBack(r.calls, 0)
    ensures KeepsSpan(r)
  {
    forall i: nat, j: nat | i < j < |r.calls|
      ensures r.calls[i].now <= r.calls[j].now
    {
      NoStepsBack(r.calls, i, j);
    }
    SmallBurstKeepsRate(r);
    forall i, j, lo, hi | 0 <= i < j <= |r.calls| && Spans(r, i, j, lo, hi)
      ensures WithinSpan(r, i, j, lo, hi)
    {
      TravelIsElapsed(r, i, j - 1);
      Multiply(r.rate, r.Travel(i, j - 1), hi - lo);
    }
  }

  /** A clock that is `d` ahead at every other call. */
  ghost function Zigzag(rate: int, burst: int, d: int, n: nat): Run {
    Run(rate, burst, seq(n, k requires 0 <= k < n => Call(if k % 2 == 0 then 0 else d, false)))
  }

  /** What has been spent and what is left. */
  ghost function Wealth(r: Run, n: nat): int
    requires 0 < n <= |r.calls|
  {
    TOKEN * r.Admitted(0, n) + r.Slot(n).value.tokens
  }

  /** After a call the bucket is not full. */
  lemma {:induction false} RoomLeft(r: Run, n: nat)
    requires r.Valid() && 0 < n <= |r.calls|
    ensures 0 <= r.Slot(n).value.tokens < TOKEN * r.burst
  {
    LevelInRange(r, n - 1);
    LevelInRange(r, n);
    assert r.Slot(n) == Some(Stored(r.Found(n - 1), r.rate, r.burst, r.calls[n - 1].now));
  }

  /** Two calls of the zigzag make the wealth grow. */
  lemma {:induction false} WealthGrows(r: Run, d: int, n: nat)
    requires r.Valid() && r.burst <= 2 * r.rate && d >= 1 && 0 < n && n + 1 < |r.calls|
    requires r.calls[n].now == r.calls[n - 1].now + d && r.calls[n + 1].now == r.calls[n].now - d
    ensures Wealth(r, n + 2) >= Wealth(r, n) + 1
  {
    LevelInRange(r, n);
    LevelInRange(r, n + 1);
    RoomLeft(r, n);
    ExpiryIsInvisible(r, n);
    ExpiryIsInvisible(r, n + 1);
    Multiply(r.rate, 1, d);
    assert d * r.rate == r.rate * d;
    Spends(r, 0, n);
    Spends(r, 0, n + 1);
    RoomLeft(r, n + 1);
  }

  lemma {:induction false} ZigzagGrows(rate: int, burst: int, d: int, n: nat, m: nat)
    requires rate >= 1 && 1 <= burst <= 2 * rate && d >= 1 && 2 * m + 1 <= n
    ensures Wealth(Zigzag(rate, burst, d, n), 2 * m + 1) >= TOKEN * burst + m
    decreases m
  {
    var r := Zigzag(rate, burst, d, n);
    if m == 0 {
      Spends(r, 0, 0);
    } else {
      ZigzagGrows(rate, burst, d, n, m - 1);
      WealthGrows(r, d, 2 * m - 1);
    }
  }

  /** However long the clock goes back and forth, its readings span `d` only. */
  lemma {:induction false} ZigzagBreaksSpan(rate: int, burst: int, d: int) returns (calls: seq<Call>)
    requires rate >= 1 && 1 <= burst <= 2 * rate && d >= 1
    ensures StepsBack(calls, d) && !KeepsSpan(Run(rate, burst, calls))
  {
    Multiply(rate, 0, d);
    var m: nat := TOKEN * burst + rate * d + 1;
    var n := 2 * m + 1;
    var r := Zigzag(rate, burst, d, n);
    calls := r.calls;
    ZigzagGrows(rate, burst, d, n, m);
    RoomLeft(r, n);
    assert Spans(r, 0, n, 0, d);
    assert !WithinSpan(r, 0, n, 0, d);
    assert r == Run(rate, burst, calls);
  }

  /** The documented bound holds for all runs whose clock steps back at most `d` at a time
      if and only if it never steps back. */
  lemma {:induction false} StepBackBoundIff(rate: int, burst: int, d: int)
    requires rate >= 1 && 1 <= burst <= 2 * rate && d >= 0
    ensures (forall calls: seq<Call> :: StepsBack(calls, d) ==> KeepsSpan(Run(rate, burst, calls))) <==> d == 0
  {
    if d == 0 {
      forall calls: seq<Call> | StepsBack(calls, d)
        ensures KeepsSpan(Run(rate, burst, calls))
      {
        MonotoneKeepsSpan(Run(rate, burst, calls));
      }
    } else {
      var calls := ZigzagBreaksSpan(rate, burst, d);
    }
  }

  /** A clock that steps back is written to the entry, so the same second refills twice:
      at a rate and a burst of one token, three calls are admitted although the clock ends
      where it started. */
  lemma {:induction false} SteppingBackRefillsTwice()
    ensures var r := Run(1, 1,
                         [Call(1000, false), Call(0, false), Call(1000, false), Call(0, false), Call(1000, false)]);
            r.Admitted(0, 5) == 3 && r.calls[4].now - r.calls[0].now == 0
  {
    var r := Run(1, 1, [Call(1000, false), Call(0, false), Call(1000, false), Call(0, false), Call(1000, false)]);
    assert r.Slot(1) == Some(Bucket(0, 1000));
    assert r.Slot(2) == Some(Bucket(0, 0));
    assert r.Slot(3) == Some(Bucket(0, 1000));
    assert r.Slot(4) == Some(Bucket(0, 0));
    assert r.Admitted(0, 1) == 1;
    assert r.Admitted(0, 2) == 1;
    assert r.Admitted(0, 3) == 2;
    assert r.Admitted(0, 4) == 2;
  }

  /** `WindowBound` between two times of a clock that does not step back. */
  lemma {:induction false} WindowBoundBetween(r: Run, i: nat, j: nat, from: int, to: int)
    requires r.Valid() && r.Monotone() && i <= j <= |r.calls| && from <= to
    requires i < j ==> from <= r.calls[i].now && r.calls[j - 1].now <= to
    ensures 2 * TOKEN * r.Admitted(i, j) <= 2 * TOKEN * r.burst + Max(2 * r.rate, r.burst) * (to - from)
  {
    var cap := Max(2 * r.rate, r.burst);
    if i < j {
      WindowBound(r, i, j);
      TravelIsElapsed(r, i, j - 1);
      Multiply(cap, r.Travel(i, j - 1), to - from);
    } else {
      Multiply(cap, 0, to - from);
    }
  }

}
