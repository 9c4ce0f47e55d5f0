/** What the two levels of the limiter admit in a window of a run
    (internal/ratelimit/limiter.go:43-135).

    Bounds are stated twice: for any clock, with the forward movement of its readings
    between evaluations, and for a clock that does not step back, with the time that passes.
    A request reads the clock before its script is evaluated, so requests that overlap can
    be evaluated against the order of their readings. */
module LimiterBounds {
  import opened Sums
  import opened TokenBucket
  import opened RateLimiter
  import opened LimiterRuns

  // ----- the window bound of a key --------------------------------------------------

  lemma {:induction false} CallsGrow(m: Memory, steps: seq<Step>, a: nat, k: string)
    requires a <= |steps|
    ensures |Calls(m, steps[..a], k)| <= |Calls(m, steps, k)|
    decreases |steps|
  {
    if |steps| == a {
      assert steps[..a] == steps;
    } else {
      CallsGrow(m, steps[..|steps| - 1], a, k);
      assert steps[..|steps| - 1][..a] == steps[..a];
    }
  }

  /** How far the readings of the calls from `i` on move forward from one to the next; their
      steps back are not subtracted. */
  ghost function Moved(calls: seq<Call>, i: nat): int {
    if i < |calls| then Run(1, 1, calls).Travel(i, |calls| - 1) else 0
  }

  /** The same of the evaluations under key `k` from index `a` on. */
  ghost function Forward(m: Memory, steps: seq<Step>, a: nat, k: string): int
    requires a <= |steps|
  {
    Moved(Calls(m, steps, k), |Calls(m, steps[..a], k)|)
  }

  /** The reading of the last call from `i` on. */
  ghost function LastOf(calls: seq<Call>, i: nat): Option<int> {
    if i < |calls| then Some(calls[|calls| - 1].now) else None
  }

  /** What an evaluation at `now` adds after one at `last`. */
  ghost function Gap(last: Option<int>, now: int): int { if last.Some? then Max(0, now - last.value) else 0 }

  lemma {:induction false} MovedStep(calls: seq<Call>, i: nat, next: Call)
    requires i <= |calls|
    ensures Moved(calls + [next], i) == Moved(calls, i) + Gap(LastOf(calls, i), next.now)
    ensures LastOf(calls + [next], i) == Some(next.now)
  {
    if i < |calls| {
      PrefixStable(Run(1, 1, calls), next, i, |calls| - 1);
    }
  }

  lemma {:induction false} SameTravel(r: Run, s: Run, i: nat, j: nat)
    requires r.calls == s.calls && i <= j < |r.calls|
    ensures 0 <= r.Travel(i, j) == s.Travel(i, j)
    decreases j
  {
    if i < j {
      SameTravel(r, s, i, j - 1);
    }
  }

  lemma {:induction false} MovedBound(r: Run, i: nat)
    requires r.Valid() && i <= |r.calls|
    ensures 2 * TOKEN * r.Admitted(i, |r.calls|)
         <= 2 * TOKEN * r.burst + Max(2 * r.rate, r.burst) * Moved(r.calls, i)
  {
    if i < |r.calls| {
      WindowBound(r, i, |r.calls|);
      SameTravel(r, Run(1, 1, r.calls), i, |r.calls| - 1);
    }
  }

  /** Steps a .. pass the bucket under a key, by the word of the script, at most its burst
      plus max(rate, burst / 2) a second often: for any clock, and however the requests
      cross between reading it and being evaluated. */
  lemma {:induction false} KeyBoundAnyClock(m: Memory, steps: seq<Step>, a: nat, k: string, rate: int, burst: int)
    requires m.redisUp && At(m.hashes, k) == None && rate >= 1 && burst >= 1 && a <= |steps|
    requires PlanOn(steps, k, rate, burst)
    ensures 2 * TOKEN * Passed(m, steps, a, k, false)
         <= 2 * TOKEN * burst + Max(2 * rate, burst) * Forward(m, steps, a, k)
  {
    PassedAreAdmitted(m, steps, a, k, rate, burst);
    hide PlanOn, Calls, Passed, Moved, Run.Admitted;
    MovedBound(Run(rate, burst, Calls(m, steps, k)), |Calls(m, steps[..a], k)|);
  }

  // ----- evaluations in the order of their readings ---------------------------------

  /** The script is evaluated in the order in which the clock was read. */
  ghost predicate InOrder(steps: seq<Step>) {
    forall i, j :: 0 <= i < j < |steps| && steps[i].Evaluates() && steps[j].Evaluates() ==>
      steps[i].e.now <= steps[j].e.now
  }

  /** Every evaluation from index `a` on carries a reading between the two times. */
  ghost predicate Within(steps: seq<Step>, a: nat, from: int, to: int) {
    forall i :: a <= i < |steps| && steps[i].Evaluates() ==> from <= steps[i].e.now <= to
  }

  /** The reading of the last evaluation under key `k` from index `a` on. */
  ghost function LastAt(m: Memory, steps: seq<Step>, a: nat, k: string): Option<int>
    requires a <= |steps|
  {
    LastOf(Calls(m, steps, k), |Calls(m, steps[..a], k)|)
  }

  lemma {:induction false} ForwardStep(m: Memory, steps: seq<Step>, a: nat, k: string)
    requires a < |steps|
    ensures var before := steps[..|steps| - 1];
            var next := CallOn(After(m, before), steps[|steps| - 1], k);
            if next.Some? then
              && Forward(m, steps, a, k) == Forward(m, before, a, k) + Gap(LastAt(m, before, a, k), next.value.now)
              && LastAt(m, steps, a, k) == Some(next.value.now)
            else
              Forward(m, steps, a, k) == Forward(m, before, a, k) && LastAt(m, steps, a, k) == LastAt(m, before, a, k)
  {
    var before := steps[..|steps| - 1];
    assert before[..a] == steps[..a];
    CallsGrow(m, before, a, k);
    var calls, i := Calls(m, before, k), |Calls(m, before[..a], k)|;
    var next := CallOn(After(m, before), steps[|steps| - 1], k);
    assert Calls(m, steps, k) == calls + (if next.Some? then [next.value] else []);
    hide CallOn, After, Calls, Moved, LastOf;
    if next.Some? {
      MovedStep(calls, i, next.value);
    } else {
      assert calls + [] == calls;
    }
  }

  lemma {:induction false} NoneYet(m: Memory, steps: seq<Step>, k: string)
    ensures Forward(m, steps, |steps|, k) == 0 && LastAt(m, steps, |steps|, k) == None
  {
    assert steps[..|steps|] == steps;
  }

  /** In order, the readings move forward no further than the window is long. */
  lemma {:induction false} InOrderForward(m: Memory, steps: seq<Step>, a: nat, k: string, from: int, to: int)
    returns (latest: int)
    requires a <= |steps| && InOrder(steps) && Within(steps, a, from, to) && from <= to
    ensures 0 <= Forward(m, steps, a, k) <= latest - from <= to - from
    ensures latest == from || exists i :: a <= i < |steps| && steps[i].Evaluates() && steps[i].e.now == latest
    ensures LastAt(m, steps, a, k) in {None, Some(latest)}
    decreases |steps|
  {
    latest := from;
    if |steps| == a {
      NoneYet(m, steps, k);
    } else {
      var before, last := steps[..|steps| - 1], steps[|steps| - 1];
      assert forall i :: 0 <= i < |before| ==> before[i] == steps[i];
      latest := InOrderForward(m, before, a, k, from, to);
      ForwardStep(m, steps, a, k);
      var next := CallOn(After(m, before), last, k);
      assert next.Some? ==> last.Evaluates() && last.e.now == next.value.now;
      hide LastAt, Forward, After, CallOn;
      if next.Some? {
        latest := next.value.now;
      }
    }
  }

  // ----- evaluations that cross -----------------------------------------------------

  /** The clock does not step back from one reading to the next. */
  ghost predicate Clocked(steps: seq<Step>) {
    forall i, j :: 0 <= i < j < |steps| && steps[i].Clock? && steps[j].Clock? ==> steps[i].now <= steps[j].now
  }

  /** The bucket that a request asks next. */
  ghost function KeyOf(id: Id, f: Flight): string {
    if f.AtToken? then TokenKey(id.0) else TokenIPKey(id.0, f.ip)
  }

  function Clip(t: int, from: int, to: int): int { Max(from, Min(to, t)) }

  /** A request holds a reading for key `k`. */
  ghost predicate Holds(s: State, id: Id, k: string) {
    id in s.flight && s.flight[id].now.Some? && KeyOf(id, s.flight[id]) == k
  }

  /** The requests that have read the clock and wait for the script of key `k`. */
  ghost function Waiting(s: State, k: string): set<Id> {
    set id | id in s.flight && Holds(s, id, k)
  }

  /** What they have read, moved into the window. */
  ghost function Readings(s: State, k: string, from: int, to: int): map<Id, int> {
    map id | id in Waiting(s, k) :: Clip(s.flight[id].now.value, from, to)
  }

  /** From index `a` on at most `K` requests wait for the script of key `k` at a time. */
  ghost predicate AtMost(m: Memory, steps: seq<Step>, a: nat, k: string, K: nat) {
    forall n :: a <= n <= |steps| ==> |Waiting(After(m, steps[..n]), k)| <= K
  }

  ghost predicate Enters(s: State, step: Step, k: string) {
    step.Clock? && (step.key, step.n) in s.flight && s.flight[(step.key, step.n)].now.None?
    && KeyOf((step.key, step.n), s.flight[(step.key, step.n)]) == k
  }

  ghost predicate Leaves(s: State, step: Step, k: string) {
    CheckOf(s, step).Some? && CheckOf(s, step).value.key == k
  }

  /** The request that a step is about. */
  ghost function IdOf(step: Step): Id {
    match step
    case Read(token, n, _, _, _) => (token.key, n)
    case Clock(key, n, _) => (key, n)
    case TokenScript(key, n, _) => (key, n)
    case AddressScript(key, n, _) => (key, n)
    case Success(key, _, _) => (key, 0)
  }

  lemma {:induction false} OthersFly(s: State, step: Step, id: Id)
    requires step.Success? || id != IdOf(step)
    ensures var s' := Apply(s, step);
            (id in s'.flight <==> id in s.flight) && (id in s.flight ==> s'.flight[id] == s.flight[id])
  {
    hide Allows, Checked, OverQuota, TokenKey, TokenIPKey;
  }

  lemma {:induction false} HoldsStep(s: State, step: Step, k: string)
    requires !step.Success?
    ensures var s', id := Apply(s, step), IdOf(step);
            && (Enters(s, step, k) ==> !Holds(s, id, k) && Holds(s', id, k) && s'.flight[id].now.value == step.now)
            && (Leaves(s, step, k) ==> Holds(s, id, k) && !Holds(s', id, k) && s.flight[id].now.value == step.e.now)
            && (!Enters(s, step, k) && !Leaves(s, step, k) ==>
                  && (Holds(s', id, k) <==> Holds(s, id, k))
                  && (Holds(s, id, k) ==> s'.flight[id].now == s.flight[id].now))
  {
    hide Allows, Checked, OverQuota, TokenKey, TokenIPKey;
  }

  lemma {:induction false} HoldsElsewhere(s: State, step: Step, k: string, id: Id)
    requires step.Success? || id != IdOf(step)
    ensures Holds(Apply(s, step), id, k) <==> Holds(s, id, k)
    ensures Holds(s, id, k) ==> Apply(s, step).flight[id].now == s.flight[id].now
  {
    OthersFly(s, step, id);
    hide Apply, KeyOf;
  }

  lemma {:induction false} StepKinds(s: State, step: Step, k: string)
    ensures Enters(s, step, k) ==> step.Clock?
    ensures Leaves(s, step, k) ==> step.Evaluates()
    ensures CallOn(s, step, k).Some? ==> Leaves(s, step, k) && CallOn(s, step, k).value.now == step.e.now
  {
  }

  lemma {:induction false} ReadingsStep(s: State, step: Step, k: string, from: int, to: int)
    ensures var before, after, id := Readings(s, k, from, to), Readings(Apply(s, step), k, from, to), IdOf(step);
            && (Enters(s, step, k) ==> id !in before && after == before[id := Clip(step.now, from, to)])
            && (Leaves(s, step, k) ==>
                id in before && after == before - {id} && before[id] == Clip(step.e.now, from, to))
            && (!Enters(s, step, k) && !Leaves(s, step, k) ==> after == before)
  {
    hide Apply, Clip, Enters, Leaves, Readings, CallOn;
    StepKinds(s, step, k);
    if !step.Success? {
      OwnReading(s, step, k, from, to);
    }
    var before, after, id := Readings(s, k, from, to), Readings(Apply(s, step), k, from, to), IdOf(step);
    forall other | step.Success? || other != id
      ensures (other in after <==> other in before) && (other in before ==> after[other] == before[other])
    {
      OtherReading(s, step, k, from, to, other);
    }
    hide IdOf;
    if Enters(s, step, k) {
      assert after == before[id := Clip(step.now, from, to)];
    } else if Leaves(s, step, k) {
      assert after == before - {id};
    }
  }

  lemma {:induction false} OtherReading(s: State, step: Step, k: string, from: int, to: int, id: Id)
    requires step.Success? || id != IdOf(step)
    ensures var before, after := Readings(s, k, from, to), Readings(Apply(s, step), k, from, to);
            (id in after <==> id in before) && (id in before ==> after[id] == before[id])
  {
    HoldsElsewhere(s, step, k, id);
    hide Apply, Clip, Holds;
  }

  lemma {:induction false} OwnReading(s: State, step: Step, k: string, from: int, to: int)
    requires !step.Success?
    ensures var before, after, id := Readings(s, k, from, to), Readings(Apply(s, step), k, from, to), IdOf(step);
            && (Enters(s, step, k) ==> id !in before && id in after && after[id] == Clip(step.now, from, to))
            && (Leaves(s, step, k) ==> id in before && id !in after && before[id] == Clip(step.e.now, from, to))
            && (!Enters(s, step, k) && !Leaves(s, step, k) ==>
                  (id in after <==> id in before) && (id in before ==> after[id] == before[id]))
  {
    HoldsStep(s, step, k);
    hide Apply, Clip, KeyOf, Enters, Leaves, Holds;
  }

  /** How far the readings lie behind the time `c`, all together. */
  ghost function Lag(r: map<Id, int>, c: int): int { Times(|r|, c) - Total(r) }

  ghost function Times(n: int, t: int): int { n * t }

  lemma {:induction false} LagRange(r: map<Id, int>, from: int, c: int)
    requires forall id :: id in r ==> from <= r[id] <= c
    ensures 0 <= Lag(r, c) <= Times(|r|, c - from)
    decreases |r|
  {
    if r != map[] {
      var id :| id in r;
      TotalRemove(r, id);
      var rest := r - {id};
      assert rest.Keys == r.Keys - {id};
      LagRange(rest, from, c);
      OneMoreTime(|r|, c);
      OneMoreTime(|r|, c - from);
    }
  }

  /** A request more reads the clock at `d`. */
  lemma {:induction false} LagEnters(r: map<Id, int>, id: Id, c: int, d: int, K: nat, from: int)
    requires id !in r && c <= d && |r| + 1 <= K
    ensures Lag(r[id := d], d) + (d - c) - Lag(r, c) <= Times(K, d - from) - Times(K, c - from)
  {
    hide Times, Total;
    TotalUpdate(r, id, d);
    OneMoreKey(r, id, d);
    Share(|r|, c, d, K, from);
  }

  lemma {:induction false} OneMoreKey(r: map<Id, int>, id: Id, d: int)
    requires id !in r
    ensures |r[id := d]| == |r| + 1
  {
    assert r[id := d].Keys == r.Keys + {id};
  }

  lemma {:induction false} Share(n: nat, c: int, d: int, K: nat, from: int)
    requires c <= d && n + 1 <= K
    ensures Times(n + 1, d) - d + (d - c) - Times(n, c) <= Times(K, d - from) - Times(K, c - from)
  {
    Multiply(d - c, n + 1, K);
    assert (d - c) * (n + 1) == n * d - n * c + d - c;
    assert (n + 1) * d == n * d + d;
    assert K * (d - from) - K * (c - from) == (d - c) * K;
  }

  lemma {:induction false} LagLeaves(r: map<Id, int>, id: Id, c: int)
    requires id in r
    ensures Lag(r - {id}, c) == Lag(r, c) - (c - r[id])
  {
    hide Total;
    TotalRemove(r, id);
    OneKeyLess(r, id);
    OneMoreTime(|r|, c);
  }

  lemma {:induction false} OneKeyLess(r: map<Id, int>, id: Id)
    requires id in r
    ensures |r - {id}| == |r| - 1
  {
    assert (r - {id}).Keys == r.Keys - {id};
  }

  /** The latest reading of the clock, if it is later than `from`. */
  ghost function Latest(steps: seq<Step>, from: int): int {
    if steps == [] then from else
    var before, last := Latest(steps[..|steps| - 1], from), steps[|steps| - 1];
    if last.Clock? then Max(before, last.now) else before
  }

  lemma {:induction false} LatestBelow(steps: seq<Step>, from: int, t: int)
    requires from <= t && forall i :: 0 <= i < |steps| && steps[i].Clock? ==> steps[i].now <= t
    ensures from <= Latest(steps, from) <= t
    decreases |steps|
  {
    if steps != [] {
      LatestBelow(steps[..|steps| - 1], from, t);
    }
  }

  /** Of a clock that does not step back, the latest reading is the last. */
  lemma {:induction false} NextIsLater(steps: seq<Step>, from: int, to: int)
    requires steps != [] && Clocked(steps) && steps[|steps| - 1].Clock? && from <= to
    ensures Clip(Latest(steps[..|steps| - 1], from), from, to) <= Clip(steps[|steps| - 1].now, from, to)
  {
    var before, now := steps[..|steps| - 1], steps[|steps| - 1].now;
    assert forall i :: 0 <= i < |before| ==> before[i] == steps[i];
    LatestBelow(before, from, Max(from, now));
  }

  lemma {:induction false} ReadingsAreBehind(m: Memory, steps: seq<Step>, k: string, from: int, to: int)
    requires from <= to
    ensures from <= Latest(steps, from)
    ensures var r := Readings(After(m, steps), k, from, to);
            forall id :: id in r ==> from <= r[id] <= Clip(Latest(steps, from), from, to)
    decreases |steps|
  {
    if steps != [] {
      var before, last := steps[..|steps| - 1], steps[|steps| - 1];
      ReadingsAreBehind(m, before, k, from, to);
      ReadingsStep(After(m, before), last, k, from, to);
      assert After(m, steps) == Apply(After(m, before), last);
      assert Enters(After(m, before), last, k) ==> last.Clock?;
      hide Apply, Readings, Enters, Leaves, After;
    }
  }

  /** The readings moved forward by `moved` up to the evaluation at `last`, and `r` wait.
      With what these lag behind the time `c`, that makes at most `K` times the time since
      `from`. */
  ghost predicate Balanced(moved: int, last: Option<int>, r: map<Id, int>, K: nat, from: int, to: int, c: int) {
    && from <= c <= to && (forall id :: id in r ==> from <= r[id] <= c)
    && (last.Some? ==> from <= last.value <= c)
    && moved + (if last.Some? then c - last.value else 0) + Lag(r, c) <= Times(K, c - from)
  }

  lemma {:induction false} StartBalances(r: map<Id, int>, K: nat, from: int, to: int, c: int)
    requires from <= c <= to && |r| <= K && forall id :: id in r ==> from <= r[id] <= c
    ensures Balanced(0, None, r, K, from, to, c)
  {
    LagRange(r, from, c);
    hide Lag;
    Multiply(c - from, |r|, K);
  }

  lemma {:induction false} BalanceBounds(moved: int, last: Option<int>, r: map<Id, int>, K: nat, from: int, to: int,
                                         c: int)
    requires Balanced(moved, last, r, K, from, to, c)
    ensures moved <= K * (to - from)
  {
    LagRange(r, from, c);
    hide Lag;
    Multiply(K, c - from, to - from);
  }

  lemma {:induction false} EnteringBalances(moved: int, last: Option<int>, r: map<Id, int>, K: nat, from: int, to: int,
                                            c: int, id: Id, d: int)
    requires Balanced(moved, last, r, K, from, to, c) && id !in r && |r[id := d]| <= K && c <= d <= to
    ensures Balanced(moved, last, r[id := d], K, from, to, d)
  {
    OneMoreKey(r, id, d);
    LagEnters(r, id, c, d, K, from);
    hide Lag, Times;
  }

  lemma {:induction false} LeavingBalances(moved: int, last: Option<int>, r: map<Id, int>, K: nat, from: int, to: int,
                                           c: int, id: Id)
    requires Balanced(moved, last, r, K, from, to, c) && id in r
    ensures Balanced(moved, last, r - {id}, K, from, to, c)
    ensures Balanced(moved + Gap(last, r[id]), Some(r[id]), r - {id}, K, from, to, c)
  {
    LagLeaves(r, id, c);
    hide Lag, Times;
  }

  ghost predicate BalancedAt(m: Memory, steps: seq<Step>, a: nat, k: string, K: nat, from: int, to: int, c: int)
    requires a <= |steps|
  {
    Balanced(Forward(m, steps, a, k), LastAt(m, steps, a, k), Readings(After(m, steps), k, from, to), K, from, to, c)
  }

  lemma {:induction false} BalancedAtStart(m: Memory, steps: seq<Step>, k: string, K: nat, from: int, to: int)
    returns (c: int)
    requires from <= to && AtMost(m, steps, |steps|, k, K)
    ensures BalancedAt(m, steps, |steps|, k, K, from, to, c) && c == Clip(Latest(steps, from), from, to)
  {
    c := Clip(Latest(steps, from), from, to);
    NoneYet(m, steps, k);
    ReadingsAreBehind(m, steps, k, from, to);
    FewReadings(m, steps, |steps|, k, K, from, to);
    hide Readings, Latest, LastAt, Forward, After, AtMost, Balanced;
    StartBalances(Readings(After(m, steps), k, from, to), K, from, to, c);
  }

  lemma {:induction false} FewReadings(m: Memory, steps: seq<Step>, a: nat, k: string, K: nat, from: int, to: int)
    requires a <= |steps| && AtMost(m, steps, a, k, K)
    ensures |Readings(After(m, steps), k, from, to)| <= K
  {
    hide After, Waiting;
    assert steps[..|steps|] == steps && |Waiting(After(m, steps[..|steps|]), k)| <= K;
    assert Readings(After(m, steps), k, from, to).Keys == Waiting(After(m, steps), k);
  }

  lemma {:induction false} BalanceStep(m: Memory, steps: seq<Step>, a: nat, k: string, K: nat, from: int, to: int,
                                       c: int)
    returns (d: int)
    requires a < |steps| && Within(steps, a, from, to) && from <= to && AtMost(m, steps, a, k, K)
    requires BalancedAt(m, steps[..|steps| - 1], a, k, K, from, to, c)
    requires steps[|steps| - 1].Clock? ==> c <= Clip(steps[|steps| - 1].now, from, to)
    ensures BalancedAt(m, steps, a, k, K, from, to, d)
    ensures d == c || (steps[|steps| - 1].Clock? && d == Clip(steps[|steps| - 1].now, from, to))
  {
    var last, s := steps[|steps| - 1], After(m, steps[..|steps| - 1]);
    var r, id := Readings(s, k, from, to), IdOf(last);
    var moved, latest := Forward(m, steps[..|steps| - 1], a, k), LastAt(m, steps[..|steps| - 1], a, k);
    assert After(m, steps) == Apply(s, last);
    hide Apply, After, Readings, Forward, LastAt, CallOn, Balanced, AtMost, CheckOf, Enters, Leaves;
    ForwardStep(m, steps, a, k);
    ReadingsStep(s, last, k, from, to);
    StepKinds(s, last, k);
    FewReadings(m, steps, a, k, K, from, to);
    d := c;
    if Enters(s, last, k) {
      d := Clip(last.now, from, to);
      EnteringBalances(moved, latest, r, K, from, to, c, id, d);
    } else if Leaves(s, last, k) {
      LeavingBalances(moved, latest, r, K, from, to, c, id);
    }
  }

  lemma {:induction false} Balances(m: Memory, steps: seq<Step>, a: nat, k: string, K: nat, from: int, to: int)
    returns (c: int)
    requires a <= |steps| && Clocked(steps) && Within(steps, a, from, to) && from <= to && AtMost(m, steps, a, k, K)
    ensures BalancedAt(m, steps, a, k, K, from, to, c) && c <= Clip(Latest(steps, from), from, to)
    decreases |steps|
  {
    if |steps| == a {
      c := BalancedAtStart(m, steps, k, K, from, to);
    } else {
      var before, last := steps[..|steps| - 1], steps[|steps| - 1];
      assert forall i :: 0 <= i < |before| ==> before[i] == steps[i];
      assert forall n :: 0 <= n <= |before| ==> before[..n] == steps[..n];
      c := Balances(m, before, a, k, K, from, to);
      hide BalancedAt, AtMost;
      if last.Clock? {
        NextIsLater(steps, from, to);
      }
      c := BalanceStep(m, steps, a, k, K, from, to, c);
    }
  }

  /** With at most `K` readings waiting, the readings move forward by at most `K` times the
      length of the window. */
  lemma {:induction false} OverlapForward(m: Memory, steps: seq<Step>, a: nat, k: string, K: nat, from: int, to: int)
    requires a <= |steps| && Clocked(steps) && Within(steps, a, from, to) && from <= to && AtMost(m, steps, a, k, K)
    ensures Forward(m, steps, a, k) <= K * (to - from)
  {
    var c := Balances(m, steps, a, k, K, from, to);
    hide Forward, LastAt, After, Readings, Balanced, Times;
    BalanceBounds(Forward(m, steps, a, k), LastAt(m, steps, a, k), Readings(After(m, steps), k, from, to), K, from, to,
                  c);
  }

  // ----- a clock and a number of requests -------------------------------------------

  /** From index `a` on evaluations carry readings between the two times, of a clock that
      does not step back, and at most `K` requests wait for the script of key `k` at a time.
      Evaluations in the order of their readings may be any number and count as one. */
  ghost predicate Paced(m: Memory, steps: seq<Step>, a: nat, k: string, K: nat, from: int, to: int) {
    && from <= to && Within(steps, a, from, to)
    && ((Clocked(steps) && AtMost(m, steps, a, k, K)) || (InOrder(steps) && K == 1))
  }

  /** The readings of a window move forward by at most `K` times its length. */
  lemma {:induction false} ForwardBound(m: Memory, steps: seq<Step>, a: nat, k: string, K: nat, from: int, to: int)
    requires a <= |steps| && Paced(m, steps, a, k, K, from, to)
    ensures Forward(m, steps, a, k) <= K * (to - from)
  {
    hide Forward, Within, Clocked, AtMost, InOrder;
    if Clocked(steps) && AtMost(m, steps, a, k, K) {
      OverlapForward(m, steps, a, k, K, from, to);
    } else {
      var latest := InOrderForward(m, steps, a, k, from, to);
    }
  }

  /** Steps a .. pass the bucket under a key, by the word of the script, at most its burst
      plus `K` times max(rate, burst / 2) a second often. */
  lemma {:induction false} KeyBound(m: Memory, steps: seq<Step>, a: nat, k: string, rate: int, burst: int,
                                    K: nat, from: int, to: int)
    requires m.redisUp && At(m.hashes, k) == None && rate >= 1 && burst >= 1 && a <= |steps|
    requires PlanOn(steps, k, rate, burst) && Paced(m, steps, a, k, K, from, to)
    ensures 2 * TOKEN * Passed(m, steps, a, k, false) <= 2 * TOKEN * burst + Max(2 * rate, burst) * (K * (to - from))
  {
    hide PlanOn, Paced, Passed, Forward;
    KeyBoundAnyClock(m, steps, a, k, rate, burst);
    ForwardBound(m, steps, a, k, K, from, to);
    Multiply(Max(2 * rate, burst), Forward(m, steps, a, k), K * (to - from));
  }

  // ----- the two levels together ----------------------------------------------------

  /** Verdicts `v` for the token from index `a` on; `ip` restricts them to one address. */
  ghost function Verdicts(m: Memory, steps: seq<Step>, a: nat, token: string, ip: Option<string>, v: Verdict): nat
    requires a <= |steps|
  {
    if |steps| == a then 0 else
    var before, last := steps[..|steps| - 1], steps[|steps| - 1];
    Verdicts(m, before, a, token, ip, v) + (if Gets(After(m, before), last, token, ip, v) then 1 else 0)
  }

  ghost predicate Gets(s: State, step: Step, token: string, ip: Option<string>, v: Verdict) {
    var answer := Answer(s, step);
    step.Of() == token && answer.Some? && answer.value.1 == v && (ip.Some? ==> answer.value.0 == ip.value)
  }

  /** Requests of the token that are past its bucket and not yet at that of their address. */
  function Between(s: State, token: string): set<Id> {
    set id | id in s.flight && id.0 == token && s.flight[id].AtAddress?
  }

  ghost predicate PassesToken(s: State, step: Step, token: string) {
    Passes(s, step, TokenKey(token), false) || Passes(s, step, TokenKey(token), true)
  }

  lemma {:induction false} TokenSplits(s: State, step: Step, token: string)
    requires step.TokenScript? && step.Of() == token
    ensures |Between(Apply(s, step), token)| == |Between(s, token)| + (if PassesToken(s, step, token) then 1 else 0)
  {
    hide Allows, Checked;
    var c := CheckOf(s, step);
    if c.Some? {
      var id := (step.key, step.n);
      assert Between(Apply(s, step), token) == Between(s, token) + (if Allows(s.m, c.value) then {id} else {});
    }
  }

  lemma {:induction false} AddressSplits(s: State, step: Step, token: string)
    requires step.AddressScript? && step.Of() == token
    ensures |Between(Apply(s, step), token)|
         == |Between(s, token)| - (if Gets(s, step, token, None, Allowed) then 1 else 0)
                                - (if Gets(s, step, token, None, TokenIPRate) then 1 else 0)
    ensures !PassesToken(s, step, token)
  {
    hide Allows, Checked;
    var c := CheckOf(s, step);
    if c.Some? {
      var id := (step.key, step.n);
      FamiliesDisjoint(token, token, s.flight[id].ip);
      assert Between(Apply(s, step), token) == Between(s, token) - {id};
    }
  }

  lemma {:induction false} OtherSplits(s: State, step: Step, token: string)
    requires !(step.Evaluates() && step.Of() == token)
    ensures Between(Apply(s, step), token) == Between(s, token)
    ensures !PassesToken(s, step, token) && !Gets(s, step, token, None, Allowed)
            && !Gets(s, step, token, None, TokenIPRate)
  {
    hide Allows, Checked, OverQuota;
    TokenKeyInjective(step.Of(), token);
    if CheckOf(s, step).Some? {
      FamiliesDisjoint(token, step.key, s.flight[(step.key, step.n)].ip);
    }
  }

  lemma {:induction false} StepSplits(s: State, step: Step, token: string)
    ensures |Between(Apply(s, step), token)|
         == |Between(s, token)| + (if PassesToken(s, step, token) then 1 else 0)
            - (if Gets(s, step, token, None, Allowed) then 1 else 0)
            - (if Gets(s, step, token, None, TokenIPRate) then 1 else 0)
  {
    if !(step.Evaluates() && step.Of() == token) {
      hide Apply, Gets, PassesToken, Between;
      OtherSplits(s, step, token);
    } else if step.TokenScript? {
      hide Apply, PassesToken, Between;
      TokenSplits(s, step, token);
    } else {
      hide Apply, Gets, PassesToken, Between;
      AddressSplits(s, step, token);
    }
  }

  /** Passes of the token's bucket are the calls admitted, those an address bucket turned
      away, and the change in what is between the two buckets. */
  lemma {:induction false} PassesSplit(m: Memory, steps: seq<Step>, a: nat, token: string)
    requires a <= |steps|
    ensures Passed(m, steps, a, TokenKey(token), false) + Passed(m, steps, a, TokenKey(token), true)
            + |Between(After(m, steps[..a]), token)|
         == Verdicts(m, steps, a, token, None, Allowed) + Verdicts(m, steps, a, token, None, TokenIPRate)
            + |Between(After(m, steps), token)|
    decreases |steps|
  {
    if |steps| == a {
      assert steps[..a] == steps;
    } else {
      var before := steps[..|steps| - 1];
      PassesSplit(m, before, a, token);
      assert before[..a] == steps[..a];
      StepSplits(After(m, before), steps[|steps| - 1], token);
      hide Apply, Between, Gets, TokenKey;
    }
  }

  lemma {:induction false} AdmittedPass(s: State, step: Step, token: string, ip: string)
    requires Gets(s, step, token, Some(ip), Allowed)
    ensures Passes(s, step, TokenIPKey(token, ip), false) || Passes(s, step, TokenIPKey(token, ip), true)
  {
  }

  /** Whatever is admitted from one address has passed that address bucket. */
  lemma {:induction false} AdmittedPassAddress(m: Memory, steps: seq<Step>, a: nat, token: string, ip: string)
    requires a <= |steps|
    ensures var k := TokenIPKey(token, ip);
            Verdicts(m, steps, a, token, Some(ip), Allowed)
              <= Passed(m, steps, a, k, false) + Passed(m, steps, a, k, true)
    decreases |steps|
  {
    if |steps| > a {
      var before, last := steps[..|steps| - 1], steps[|steps| - 1];
      AdmittedPassAddress(m, before, a, token, ip);
      if Gets(After(m, before), last, token, Some(ip), Allowed) {
        AdmittedPass(After(m, before), last, token, ip);
      }
    }
  }

  /** The calls admitted from these addresses. */
  ghost function PerAddress(m: Memory, steps: seq<Step>, a: nat, token: string, ips: seq<string>): nat
    requires a <= |steps|
  {
    if ips == [] then 0 else
    Verdicts(m, steps, a, token, Some(ips[0]), Allowed) + PerAddress(m, steps, a, token, ips[1..])
  }

  /** Passes of the address buckets on the word of the fallback. */
  ghost function Fallbacks(m: Memory, steps: seq<Step>, a: nat, token: string, ips: seq<string>): nat
    requires a <= |steps|
  {
    if ips == [] then 0 else
    Passed(m, steps, a, TokenIPKey(token, ips[0]), true) + Fallbacks(m, steps, a, token, ips[1..])
  }

  lemma {:induction false} PerAddressStep(m: Memory, steps: seq<Step>, a: nat, token: string, ips: seq<string>)
    requires a < |steps|
    ensures var before, last := steps[..|steps| - 1], steps[|steps| - 1];
            var s := After(m, before);
            var admitted := Gets(s, last, token, None, Allowed) && Answer(s, last).value.0 in ips;
            PerAddress(m, steps, a, token, ips) >= PerAddress(m, before, a, token, ips) + (if admitted then 1 else 0)
    decreases |ips|
  {
    hide Answer;
    if ips != [] {
      PerAddressStep(m, steps, a, token, ips[1..]);
    }
  }

  /** The token is used from these addresses only. */
  ghost predicate UsedFrom(s: State, token: string, ips: seq<string>) {
    forall id :: id in s.flight && id.0 == token ==> s.flight[id].ip in ips
  }

  lemma {:induction false} AddressesCover(m: Memory, steps: seq<Step>, a: nat, token: string, ips: seq<string>)
    requires a <= |steps| && UsedFrom(After(m, steps[..a]), token, ips)
    requires forall i :: a <= i < |steps| && steps[i].Read? && steps[i].Of() == token ==> steps[i].ip in ips
    ensures Verdicts(m, steps, a, token, None, Allowed) <= PerAddress(m, steps, a, token, ips)
    ensures UsedFrom(After(m, steps), token, ips)
    decreases |steps|
  {
    if |steps| == a {
      assert steps[..a] == steps;
    } else {
      var before, last := steps[..|steps| - 1], steps[|steps| - 1];
      assert before[..a] == steps[..a];
      AddressesCover(m, before, a, token, ips);
      PerAddressStep(m, steps, a, token, ips);
      StaysUsedFrom(After(m, before), last, token, ips);
    }
  }

  lemma {:induction false} StaysUsedFrom(s: State, step: Step, token: string, ips: seq<string>)
    requires UsedFrom(s, token, ips) && (step.Read? && step.Of() == token ==> step.ip in ips)
    ensures UsedFrom(Apply(s, step), token, ips)
    ensures Gets(s, step, token, None, Allowed) ==> Answer(s, step).value.0 in ips
  {
    hide Allows, Checked, OverQuota;
  }

  /** A fresh limiter, one plan for the token, both buckets on, no key continuing its own. */
  ghost predicate UnderPlan(m: Memory, steps: seq<Step>, plan: Token) {
    && m.redisUp && m.hashes == map[] && plan.tokenRate >= 1 && plan.ipRate >= 1
    && (forall step :: step in steps && step.Read? && step.Of() == plan.key ==> step.token == plan)
    && (forall step :: step in steps ==> Separate(step.Of(), plan.key))
  }

  lemma {:induction false} PlanOnBothKeys(m: Memory, steps: seq<Step>, plan: Token, ip: string)
    requires UnderPlan(m, steps, plan)
    ensures PlanOn(steps, TokenKey(plan.key), plan.tokenRate, BurstOf(plan.tokenRate, plan.tokenBurst))
    ensures PlanOn(steps, TokenIPKey(plan.key, ip), plan.ipRate, BurstOf(plan.ipRate, plan.ipBurst))
  {
    forall step | step in steps && step.Read?
      ensures Planned(step.token, step.token.key, step.ip, TokenKey(plan.key),
                      plan.tokenRate, BurstOf(plan.tokenRate, plan.tokenBurst))
      ensures Planned(step.token, step.token.key, step.ip, TokenIPKey(plan.key, ip),
                      plan.ipRate, BurstOf(plan.ipRate, plan.ipBurst))
    {
      TokenKeyInjective(plan.key, step.Of());
      FamiliesDisjoint(plan.key, step.Of(), step.ip);
      FamiliesDisjoint(step.Of(), plan.key, ip);
      if TokenIPKey(plan.key, ip) == TokenIPKey(step.Of(), step.ip) {
        TokenIPKeyCollides(plan.key, ip, step.Of(), step.ip);
      }
    }
  }

  lemma {:induction false} FreshKeys(m: Memory, steps: seq<Step>, plan: Token, ip: string)
    requires UnderPlan(m, steps, plan)
    ensures At(m.hashes, TokenKey(plan.key)) == None && At(m.hashes, TokenIPKey(plan.key, ip)) == None
    ensures m.redisUp && plan.tokenRate >= 1 && plan.ipRate >= 1
    ensures BurstOf(plan.tokenRate, plan.tokenBurst) >= 1 && BurstOf(plan.ipRate, plan.ipBurst) >= 1
  {
  }

  ghost function TokenBound(plan: Token, elapsed: int): int {
    var burst := BurstOf(plan.tokenRate, plan.tokenBurst);
    2 * TOKEN * burst + Max(2 * plan.tokenRate, burst) * elapsed
  }

  ghost function AddressBound(plan: Token, elapsed: int): int {
    var burst := BurstOf(plan.ipRate, plan.ipBurst);
    2 * TOKEN * burst + Max(2 * plan.ipRate, burst) * elapsed
  }

  lemma {:induction false} LongerMore(plan: Token, x: int, y: int)
    requires x <= y && plan.tokenRate >= 1 && plan.ipRate >= 1
    ensures TokenBound(plan, x) <= TokenBound(plan, y) && AddressBound(plan, x) <= AddressBound(plan, y)
  {
    Multiply(Max(2 * plan.tokenRate, BurstOf(plan.tokenRate, plan.tokenBurst)), x, y);
    Multiply(Max(2 * plan.ipRate, BurstOf(plan.ipRate, plan.ipBurst)), x, y);
  }

  ghost function TokenForward(m: Memory, steps: seq<Step>, a: nat, plan: Token): int
    requires a <= |steps|
  {
    Forward(m, steps, a, TokenKey(plan.key))
  }

  ghost function AddressForward(m: Memory, steps: seq<Step>, a: nat, plan: Token, ip: string): int
    requires a <= |steps|
  {
    Forward(m, steps, a, TokenIPKey(plan.key, ip))
  }

  /** What the token's bucket lets pass from index `a` on: admitted, turned away by an
      address, or left between the two buckets. */
  ghost function PastToken(m: Memory, steps: seq<Step>, a: nat, plan: Token): int
    requires a <= |steps|
  {
    Verdicts(m, steps, a, plan.key, None, Allowed) + Verdicts(m, steps, a, plan.key, None, TokenIPRate)
    + |Between(After(m, steps), plan.key)|
  }

  /** What comes on top of the bound: calls between the buckets at the start, and those that
      the fallback let pass. */
  ghost function Extra(m: Memory, steps: seq<Step>, a: nat, plan: Token): int
    requires a <= |steps|
  {
    |Between(After(m, steps[..a]), plan.key)| + Passed(m, steps, a, TokenKey(plan.key), true)
  }

  lemma {:induction false} KeyBounds(m: Memory, steps: seq<Step>, a: nat, plan: Token, ip: string)
    requires UnderPlan(m, steps, plan) && a <= |steps|
    ensures 2 * TOKEN * Passed(m, steps, a, TokenKey(plan.key), false)
         <= TokenBound(plan, TokenForward(m, steps, a, plan))
    ensures 2 * TOKEN * Passed(m, steps, a, TokenIPKey(plan.key, ip), false)
         <= AddressBound(plan, AddressForward(m, steps, a, plan, ip))
  {
    PlanOnBothKeys(m, steps, plan, ip);
    FreshKeys(m, steps, plan, ip);
    hide PlanOn, Passed, TokenKey, TokenIPKey, UnderPlan, Forward;
    KeyBoundAnyClock(m, steps, a, TokenKey(plan.key), plan.tokenRate, BurstOf(plan.tokenRate, plan.tokenBurst));
    KeyBoundAnyClock(m, steps, a, TokenIPKey(plan.key, ip), plan.ipRate, BurstOf(plan.ipRate, plan.ipBurst));
  }

  lemma {:induction false} PastTokenPassed(m: Memory, steps: seq<Step>, a: nat, plan: Token)
    requires a <= |steps|
    ensures PastToken(m, steps, a, plan) == Passed(m, steps, a, TokenKey(plan.key), false) + Extra(m, steps, a, plan)
  {
    hide Between, Verdicts, Passed, After, TokenKey;
    PassesSplit(m, steps, a, plan.key);
  }

  /** In any window of any run, and for any clock: what is admitted, turned away by an
      address or left between the buckets obeys the bound of the token's bucket, beyond what
      was between them at its start; and what is admitted from one address obeys the bound
      of that address. What the fallback let pass comes on top. */
  lemma {:induction false} TwoLevelBound(m: Memory, steps: seq<Step>, a: nat, plan: Token, ip: string)
    requires UnderPlan(m, steps, plan) && a <= |steps|
    ensures 2 * TOKEN * PastToken(m, steps, a, plan)
         <= TokenBound(plan, TokenForward(m, steps, a, plan)) + 2 * TOKEN * Extra(m, steps, a, plan)
    ensures 2 * TOKEN * Verdicts(m, steps, a, plan.key, Some(ip), Allowed)
         <= AddressBound(plan, AddressForward(m, steps, a, plan, ip))
            + 2 * TOKEN * Passed(m, steps, a, TokenIPKey(plan.key, ip), true)
  {
    hide PastToken, Extra, Between, Verdicts, Passed, After, TokenKey, TokenIPKey, UnderPlan, TokenBound, AddressBound;
    KeyBounds(m, steps, a, plan, ip);
    PastTokenPassed(m, steps, a, plan);
    AdmittedPassAddress(m, steps, a, plan.key, ip);
  }

  /** The bounds of the addresses, each with the forward movement of its own readings. */
  ghost function AddressBounds(m: Memory, steps: seq<Step>, a: nat, plan: Token, ips: seq<string>): int
    requires a <= |steps|
  {
    if ips == [] then 0 else
    AddressBound(plan, AddressForward(m, steps, a, plan, ips[0])) + AddressBounds(m, steps, a, plan, ips[1..])
  }

  lemma {:induction false} PerAddressBound(m: Memory, steps: seq<Step>, a: nat, plan: Token, ips: seq<string>)
    requires UnderPlan(m, steps, plan) && a <= |steps|
    ensures 2 * TOKEN * PerAddress(m, steps, a, plan.key, ips)
         <= AddressBounds(m, steps, a, plan, ips) + 2 * TOKEN * Fallbacks(m, steps, a, plan.key, ips)
    decreases |ips|
  {
    hide UnderPlan, AddressBound, TokenBound, TokenForward, AddressForward, PastToken, Extra, Verdicts, Passed,
        TokenIPKey;
    if ips != [] {
      TwoLevelBound(m, steps, a, plan, ips[0]);
      PerAddressBound(m, steps, a, plan, ips[1..]);
    }
  }

  /** The token's admissions are also at most the sum of the bounds of the addresses it is
      used from, and what the fallback let pass. */
  lemma {:induction false} SumOfAddressBounds(m: Memory, steps: seq<Step>, a: nat, plan: Token, ips: seq<string>)
    requires UnderPlan(m, steps, plan) && a <= |steps|
    requires UsedFrom(After(m, steps[..a]), plan.key, ips)
    requires forall i :: a <= i < |steps| && steps[i].Read? && steps[i].Of() == plan.key ==> steps[i].ip in ips
    ensures 2 * TOKEN * Verdicts(m, steps, a, plan.key, None, Allowed)
         <= AddressBounds(m, steps, a, plan, ips) + 2 * TOKEN * Fallbacks(m, steps, a, plan.key, ips)
  {
    hide UnderPlan, UsedFrom, AddressBounds, Fallbacks, Verdicts, After, PerAddress, Step.Of;
    PerAddressBound(m, steps, a, plan, ips);
    AddressesCover(m, steps, a, plan.key, ips);
  }

  /** Both levels between two times, with at most `K` requests waiting at either bucket. */
  lemma {:induction false} TwoLevelBoundInTime(m: Memory, steps: seq<Step>, a: nat, plan: Token, ip: string,
                                               K: nat, from: int, to: int)
    requires UnderPlan(m, steps, plan) && a <= |steps|
    requires Paced(m, steps, a, TokenKey(plan.key), K, from, to)
    requires Paced(m, steps, a, TokenIPKey(plan.key, ip), K, from, to)
    ensures 2 * TOKEN * PastToken(m, steps, a, plan)
         <= TokenBound(plan, K * (to - from)) + 2 * TOKEN * Extra(m, steps, a, plan)
    ensures 2 * TOKEN * Verdicts(m, steps, a, plan.key, Some(ip), Allowed)
         <= AddressBound(plan, K * (to - from)) + 2 * TOKEN * Passed(m, steps, a, TokenIPKey(plan.key, ip), true)
  {
    hide Paced, PastToken, Extra, Verdicts, Passed, TokenBound, AddressBound, TokenKey, TokenIPKey, Forward;
    TwoLevelBound(m, steps, a, plan, ip);
    ForwardBound(m, steps, a, TokenKey(plan.key), K, from, to);
    ForwardBound(m, steps, a, TokenIPKey(plan.key, ip), K, from, to);
    LongerMore(plan, TokenForward(m, steps, a, plan), K * (to - from));
    LongerMore(plan, AddressForward(m, steps, a, plan, ip), K * (to - from));
  }

  lemma {:induction false} AddressBoundsInTime(m: Memory, steps: seq<Step>, a: nat, plan: Token, ips: seq<string>,
                                               K: nat, from: int, to: int)
    requires UnderPlan(m, steps, plan) && a <= |steps|
    requires forall ip :: ip in ips ==> Paced(m, steps, a, TokenIPKey(plan.key, ip), K, from, to)
    ensures AddressBounds(m, steps, a, plan, ips) <= |ips| * AddressBound(plan, K * (to - from))
    decreases |ips|
  {
    hide Paced, AddressBound, TokenBound, Forward, TokenIPKey;
    if ips != [] {
      AddressBoundsInTime(m, steps, a, plan, ips[1..], K, from, to);
      ForwardBound(m, steps, a, TokenIPKey(plan.key, ips[0]), K, from, to);
      LongerMore(plan, AddressForward(m, steps, a, plan, ips[0]), K * (to - from));
      OneMoreTime(|ips|, AddressBound(plan, K * (to - from)));
    }
  }

  /** The same between two times, with at most `K` requests waiting at each address bucket. */
  lemma {:induction false} SumOfAddressBoundsInTime(m: Memory, steps: seq<Step>, a: nat, plan: Token, ips: seq<string>,
                                                    K: nat, from: int, to: int)
    requires UnderPlan(m, steps, plan) && a <= |steps|
    requires forall ip :: ip in ips ==> Paced(m, steps, a, TokenIPKey(plan.key, ip), K, from, to)
    requires UsedFrom(After(m, steps[..a]), plan.key, ips)
    requires forall i :: a <= i < |steps| && steps[i].Read? && steps[i].Of() == plan.key ==> steps[i].ip in ips
    ensures 2 * TOKEN * Verdicts(m, steps, a, plan.key, None, Allowed)
         <= |ips| * AddressBound(plan, K * (to - from)) + 2 * TOKEN * Fallbacks(m, steps, a, plan.key, ips)
  {
    hide UnderPlan, UsedFrom, AddressBounds, Fallbacks, Verdicts, After, Paced, AddressBound;
    SumOfAddressBounds(m, steps, a, plan, ips);
    AddressBoundsInTime(m, steps, a, plan, ips, K, from, to);
  }
}
