/** Requests that overlap can make the limiter's readings swing
    (internal/ratelimit/limiter.go:136-137): the factor `K` of `LimiterBounds.ForwardBound`
    is the least there is. */
module LimiterSwing {
  import opened Sums
  import opened TokenBucket
  import opened RateLimiter
  import opened LimiterRuns
  import opened LimiterBounds

  const CALLER := Token("a", 1, 1, 1, 1, 0)

  function Arrival(n: nat): Step { Read(CALLER, n, "", "2026-01-01", false) }
  function Reading(n: nat, now: int): Step { Clock(CALLER.key, n, now) }

  /** The script runs, but its answer is lost and the fallback refuses. */
  function Evaluation(n: nat, now: int): Step { TokenScript(CALLER.key, n, Eval(now, false, true, true, false)) }

  function Ready(now: Option<int>): Flight { AtToken(CALLER, "", now) }

  /** What `OverlapForward` asks for, in a window from 0 to `d` whose last reading is `latest`. */
  ghost predicate Timely(m: Memory, steps: seq<Step>, K: nat, d: int, latest: int) {
    && AtMost(m, steps, 0, TokenKey(CALLER.key), K) && Within(steps, 0, 0, d) && Clocked(steps)
    && forall i :: 0 <= i < |steps| && steps[i].Clock? ==> steps[i].now <= latest
  }

  lemma {:induction false} StaysTimely(m: Memory, steps: seq<Step>, K: nat, d: int, latest: int, step: Step)
    requires Timely(m, steps, K, d, latest) && |Apply(After(m, steps), step).flight| <= K
    requires step.Clock? ==> latest <= step.now
    requires step.Evaluates() ==> 0 <= step.e.now <= d
    ensures Timely(m, steps + [step], K, d, if step.Clock? then step.now else latest)
  {
    var more, k := steps + [step], TokenKey(CALLER.key);
    OneMore(m, steps, step);
    hide Apply, After, Waiting;
    FewWait(After(m, more), k);
    forall n | 0 <= n <= |more| ensures |Waiting(After(m, more[..n]), k)| <= K {
      assert n <= |steps| ==> more[..n] == steps[..n];
      assert more[..|more|] == more;
    }
  }

  /** A run of the caller's requests: what is in flight, how far the readings moved forward,
      and the reading of the last evaluation. */
  ghost predicate Swinging(m: Memory, steps: seq<Step>, K: nat, d: int, latest: int, flight: map<Id, Flight>,
                           moved: int, last: Option<int>) {
    && Timely(m, steps, K, d, latest) && After(m, steps).m.redisUp && After(m, steps).flight == flight
    && Forward(m, steps, 0, TokenKey(CALLER.key)) == moved && LastAt(m, steps, 0, TokenKey(CALLER.key)) == last
  }

  lemma {:induction false} SwingStep(m: Memory, steps: seq<Step>, K: nat, d: int, latest: int, flight: map<Id, Flight>,
                                     moved: int, last: Option<int>, step: Step, next: Option<Call>,
                                     after: map<Id, Flight>)
    requires Swinging(m, steps, K, d, latest, flight, moved, last)
    requires step.Clock? ==> latest <= step.now
    requires step.Evaluates() ==> 0 <= step.e.now <= d
    requires CallOn(After(m, steps), step, TokenKey(CALLER.key)) == next
    requires Apply(After(m, steps), step).flight == after && |after| <= K
    ensures Swinging(m, steps + [step], K, d, if step.Clock? then step.now else latest, after,
                     moved + (if next.Some? then Gap(last, next.value.now) else 0),
                     if next.Some? then Some(next.value.now) else last)
  {
    var more := steps + [step];
    assert more[..|more| - 1] == steps;
    OneMore(m, steps, step);
    hide Apply, After, CallOn, Forward, LastAt, Timely, TokenKey;
    RedisStaysUp(m, more);
    RedisStaysUp(m, steps);
    ForwardStep(m, more, 0, TokenKey(CALLER.key));
    StaysTimely(m, steps, K, d, latest, step);
  }

  lemma {:induction false} FewWait(s: State, k: string)
    ensures |Waiting(s, k)| <= |s.flight|
  {
    hide Holds;
    SubsetSize(Waiting(s, k), s.flight.Keys);
  }

  lemma {:induction false} Put(m: map<Id, Flight>, id: Id, f: Flight, g: Flight)
    requires id !in m
    ensures m[id := f][id := g] == m[id := g] && m[id := f] - {id} == m && |m[id := f]| == |m| + 1
  {
    PutSize(m, id, f);
  }

  lemma {:induction false} PutSize(m: map<Id, Flight>, id: Id, f: Flight)
    requires id !in m
    ensures |m[id := f]| == |m| + 1
  {
    assert m[id := f].Keys == m.Keys + {id};
  }

  lemma {:induction false} ArrivalStep(s: State, n: nat)
    requires (CALLER.key, n) !in s.flight
    ensures var more := s.flight[(CALLER.key, n) := Ready(None)];
            Apply(s, Arrival(n)).flight == more && |more| == |s.flight| + 1
    ensures CallOn(s, Arrival(n), TokenKey(CALLER.key)) == None
  {
    assert s.flight[(CALLER.key, n) := Ready(None)].Keys == s.flight.Keys + {(CALLER.key, n)};
  }

  lemma {:induction false} ReadingStep(s: State, n: nat, now: int)
    requires (CALLER.key, n) in s.flight && s.flight[(CALLER.key, n)] == Ready(None)
    ensures var same := s.flight[(CALLER.key, n) := Ready(Some(now))];
            Apply(s, Reading(n, now)).flight == same && |same| == |s.flight|
    ensures CallOn(s, Reading(n, now), TokenKey(CALLER.key)) == None
  {
    assert s.flight[(CALLER.key, n) := Ready(Some(now))].Keys == s.flight.Keys;
  }

  lemma {:induction false} EvaluationStep(s: State, n: nat, now: int)
    requires s.m.redisUp && (CALLER.key, n) in s.flight && s.flight[(CALLER.key, n)] == Ready(Some(now))
    ensures var less := s.flight - {(CALLER.key, n)};
            Apply(s, Evaluation(n, now)).flight == less && |less| == |s.flight| - 1
    ensures CallOn(s, Evaluation(n, now), TokenKey(CALLER.key)) == Some(Call(now, false))
  {
    hide TokenKey;
    assert (s.flight - {(CALLER.key, n)}).Keys == s.flight.Keys - {(CALLER.key, n)};
  }

  lemma {:induction false} Arrives(m: Memory, steps: seq<Step>, K: nat, d: int, latest: int, flight: map<Id, Flight>,
                                   moved: int, last: Option<int>, n: nat) returns (more: seq<Step>)
    requires Swinging(m, steps, K, d, latest, flight, moved, last)
    requires (CALLER.key, n) !in flight && |flight| + 1 <= K
    ensures Swinging(m, more, K, d, latest, flight[(CALLER.key, n) := Ready(None)], moved, last)
  {
    assert After(m, steps).flight == flight;
    hide Swinging, Apply, After, CallOn, TokenKey;
    ArrivalStep(After(m, steps), n);
    SwingStep(m, steps, K, d, latest, flight, moved, last, Arrival(n), None, flight[(CALLER.key, n) := Ready(None)]);
    more := steps + [Arrival(n)];
  }

  lemma {:induction false} Reads(m: Memory, steps: seq<Step>, K: nat, d: int, latest: int, flight: map<Id, Flight>,
                                 moved: int, last: Option<int>, n: nat, now: int) returns (more: seq<Step>)
    requires Swinging(m, steps, K, d, latest, flight, moved, last) && |flight| <= K && latest <= now
    requires (CALLER.key, n) in flight && flight[(CALLER.key, n)] == Ready(None)
    ensures Swinging(m, more, K, d, now, flight[(CALLER.key, n) := Ready(Some(now))], moved, last)
  {
    assert After(m, steps).flight == flight;
    hide Swinging, Apply, After, CallOn, TokenKey;
    ReadingStep(After(m, steps), n, now);
    SwingStep(m, steps, K, d, latest, flight, moved, last, Reading(n, now), None,
              flight[(CALLER.key, n) := Ready(Some(now))]);
    more := steps + [Reading(n, now)];
  }

  /** A request arrives and reads the clock. */
  lemma {:induction false} Asks(m: Memory, steps: seq<Step>, K: nat, d: int, latest: int, flight: map<Id, Flight>,
                                moved: int, last: Option<int>, n: nat, now: int) returns (more: seq<Step>)
    requires Swinging(m, steps, K, d, latest, flight, moved, last)
    requires (CALLER.key, n) !in flight && |flight| + 1 <= K && latest <= now
    ensures Swinging(m, more, K, d, now, flight[(CALLER.key, n) := Ready(Some(now))], moved, last)
  {
    hide Swinging;
    var arrived := flight[(CALLER.key, n) := Ready(None)];
    Put(flight, (CALLER.key, n), Ready(None), Ready(Some(now)));
    more := Arrives(m, steps, K, d, latest, flight, moved, last, n);
    more := Reads(m, more, K, d, latest, arrived, moved, last, n, now);
  }

  /** And its script is evaluated. */
  lemma {:induction false} Evaluates(m: Memory, steps: seq<Step>, K: nat, d: int, latest: int, flight: map<Id, Flight>,
                                     moved: int, last: Option<int>, n: nat, now: int) returns (more: seq<Step>)
    requires Swinging(m, steps, K, d, latest, flight, moved, last) && |flight| <= K && 0 <= now <= d
    requires (CALLER.key, n) in flight && flight[(CALLER.key, n)] == Ready(Some(now))
    ensures Swinging(m, more, K, d, latest, flight - {(CALLER.key, n)}, moved + Gap(last, now), Some(now))
  {
    assert After(m, steps).m.redisUp && After(m, steps).flight == flight;
    hide Swinging, Apply, After, CallOn, TokenKey;
    EvaluationStep(After(m, steps), n, now);
    SwingStep(m, steps, K, d, latest, flight, moved, last, Evaluation(n, now), Some(Call(now, false)),
              flight - {(CALLER.key, n)});
    more := steps + [Evaluation(n, now)];
  }

  /** The requests lo .. hi-1, which have read the clock at 0. */
  ghost function Stale(lo: nat, hi: nat): map<Id, Flight> {
    map n: nat | lo <= n < hi :: (CALLER.key, n) := Ready(Some(0))
  }

  lemma {:induction false} StaleGrows(lo: nat, hi: nat)
    requires lo <= hi
    ensures (CALLER.key, hi) !in Stale(lo, hi)
    ensures Stale(lo, hi)[(CALLER.key, hi) := Ready(Some(0))] == Stale(lo, hi + 1)
  {
  }

  lemma {:induction false} NoneStale(lo: nat)
    ensures Stale(lo, lo) == map[]
  {
  }

  lemma {:induction false} Begins(K: nat, d: nat)
    ensures Swinging(FRESH, [], K, d, 0, map[], 0, None)
  {
    NoSteps(FRESH);
    NoneYet(FRESH, [], TokenKey(CALLER.key));
    hide Forward, LastAt, After, TokenKey;
    FewWait(After(FRESH, []), TokenKey(CALLER.key));
  }

  lemma {:induction false} StaleSize(lo: nat, hi: nat)
    requires lo <= hi
    ensures |Stale(lo, hi)| == hi - lo
    decreases hi
  {
    NoneStale(lo);
    hide Stale;
    if lo < hi {
      StaleSize(lo, hi - 1);
      StaleGrows(lo, hi - 1);
      PutSize(Stale(lo, hi - 1), (CALLER.key, hi - 1), Ready(Some(0)));
    }
  }

  /** Requests 0 .. n-1 read the clock at 0. */
  lemma {:induction false} Gathers(K: nat, d: nat, n: nat) returns (steps: seq<Step>)
    requires n <= K
    ensures Swinging(FRESH, steps, K, d, 0, Stale(0, n), 0, None)
    decreases n
  {
    hide Swinging, Stale;
    if n == 0 {
      steps := [];
      NoneStale(0);
      Begins(K, d);
    } else {
      steps := Gathers(K, d, n - 1);
      StaleSize(0, n - 1);
      StaleGrows(0, n - 1);
      steps := Asks(FRESH, steps, K, d, 0, Stale(0, n - 1), 0, None, n - 1, 0);
    }
  }

  /** A request arrives, reads the clock and is evaluated at once. */
  lemma {:induction false} Overtakes(m: Memory, steps: seq<Step>, K: nat, d: int, latest: int, flight: map<Id, Flight>,
                                     moved: int, last: Option<int>, n: nat) returns (more: seq<Step>)
    requires Swinging(m, steps, K, d, latest, flight, moved, last) && 0 <= d && latest <= d
    requires (CALLER.key, n) !in flight && |flight| + 1 <= K
    ensures Swinging(m, more, K, d, d, flight, moved + Gap(last, d), Some(d))
  {
    hide Swinging;
    more := Asks(m, steps, K, d, latest, flight, moved, last, n, d);
    Put(flight, (CALLER.key, n), Ready(Some(d)), Ready(None));
    more := Evaluates(m, more, K, d, d, flight[(CALLER.key, n) := Ready(Some(d))], moved, last, n, d);
  }

  lemma {:induction false} StaleFirst(lo: nat, hi: nat)
    requires lo < hi
    ensures var id := (CALLER.key, lo);
            id in Stale(lo, hi) && Stale(lo, hi)[id] == Ready(Some(0)) && Stale(lo, hi) - {id} == Stale(lo + 1, hi)
    ensures forall n: nat :: hi <= n ==> (CALLER.key, n) !in Stale(lo + 1, hi)
    ensures |Stale(lo, hi)| == |Stale(lo + 1, hi)| + 1 == hi - lo
  {
    StaleSize(lo, hi);
    StaleSize(lo + 1, hi);
  }

  /** One after the other a stale request is evaluated and a fresh one. */
  lemma {:induction false} Swing(steps: seq<Step>, K: nat, d: nat, latest: int, i: nat, moved: int, last: Option<int>)
    returns (more: seq<Step>)
    requires i < K && latest <= d && last in {None, Some(d)}
    requires Swinging(FRESH, steps, K, d, latest, Stale(i, K), moved, last)
    ensures Swinging(FRESH, more, K, d, d, Stale(i + 1, K), moved + d, Some(d))
  {
    StaleFirst(i, K);
    hide Swinging, Stale;
    more := Evaluates(FRESH, steps, K, d, latest, Stale(i, K), moved, last, i, 0);
    more := Overtakes(FRESH, more, K, d, latest, Stale(i + 1, K), moved, Some(0), K + i);
  }

  lemma {:induction false} Swings(K: nat, d: nat, i: nat) returns (steps: seq<Step>)
    requires i <= K
    ensures Swinging(FRESH, steps, K, d, if i == 0 then 0 else d, Stale(i, K), i * d, if i == 0 then None else Some(d))
    decreases i
  {
    hide Swinging, Stale;
    if i == 0 {
      steps := Gathers(K, d, K);
    } else {
      steps := Swings(K, d, i - 1);
      OneMoreTime(i, d);
      steps := Swing(steps, K, d, if i == 1 then 0 else d, i - 1, (i - 1) * d, if i == 1 then None else Some(d));
    }
  }

  /** The clock does not step back, and at most `K` requests wait at the key at a time. */
  ghost predicate Crossing(m: Memory, steps: seq<Step>, a: int, k: string, K: nat, from: int, to: int) {
    && 0 <= a <= |steps| && from <= to
    && Clocked(steps) && Within(steps, a, from, to) && AtMost(m, steps, a, k, K)
  }

  /** From index `a` on the readings move forward by at most `c` times the window's length. */
  ghost predicate MovesAtMost(m: Memory, steps: seq<Step>, a: int, k: string, c: nat, from: int, to: int)
    requires 0 <= a <= |steps|
  {
    Forward(m, steps, a, k) <= c * (to - from)
  }

  /** With at most `K` requests waiting at a key, whose clock does not step back, the readings
      of every window move forward by at most `c` times its length if and only if K <= c. */
  lemma {:induction false} OverlapIff(K: nat, c: nat)
    ensures (forall m, steps, a, k, from, to :: Crossing(m, steps, a, k, K, from, to) ==>
               MovesAtMost(m, steps, a, k, c, from, to)) <==> K <= c
  {
    if K <= c {
      forall m, steps, a, k, from, to | Crossing(m, steps, a, k, K, from, to)
        ensures MovesAtMost(m, steps, a, k, c, from, to)
      {
        OverlapForward(m, steps, a, k, K, from, to);
        hide Forward;
        Multiply(to - from, K, c);
      }
    } else {
      var steps := Swings(K, 1, K);
      assert Crossing(FRESH, steps, 0, TokenKey(CALLER.key), K, 0, 1);
      assert !MovesAtMost(FRESH, steps, 0, TokenKey(CALLER.key), c, 0, 1);
    }
  }
}
