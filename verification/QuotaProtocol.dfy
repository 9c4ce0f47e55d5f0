/** The daily quota under concurrency (internal/ratelimit/limiter.go:43-50, 65-92 and
    internal/proxy/handler.go:139-140).

    A request reads the clock, then the counter of that day, is forwarded, reads the clock
    again and only then adds its successes. Each of these is a step of its own here, and
    any other request, or midnight, may come in between. */
module QuotaProtocol {
  import opened Sums
  import RateLimiter

  /** How far a request of the token has come. */
  datatype Phase =
    | Started(day: nat)          // Allow has read the day, not yet the counter
    | Admitted                   // past the quota, its successes still to come
    | Counting(day: nat, n: nat) // IncrSuccess has read the day, not yet added

  datatype State = State(today: nat, used: map<nat, int>, flight: map<nat, Phase>)

  datatype Step =
    | Begin(id: nat)
    | Check(id: nat)
    | Leave(id: nat)             // turned away by a bucket, or nothing succeeded
    | Respond(id: nat, n: nat)
    | Count(id: nat)
    | Midnight(day: nat)

  /** A token with constant quota, at most `inFlight` requests at once and at most `batch`
      successes in one response. */
  datatype Plan = Plan(quota: nat, inFlight: nat, batch: nat) {
    ghost predicate Valid() { quota >= 1 }
    function Limit(): int { quota - 1 + inFlight * batch }
  }

  const INIT := State(0, map[], map[])

  function Used(s: State, day: nat): int {
    if day in s.used then s.used[day] else 0
  }

  ghost predicate Enabled(p: Plan, s: State, step: Step) {
    match step
    case Begin(id) => id !in s.flight && |s.flight| < p.inFlight
    case Check(id) => id in s.flight && s.flight[id].Started?
    case Leave(id) => id in s.flight && !s.flight[id].Counting?
    case Respond(id, n) => id in s.flight && s.flight[id].Admitted? && 0 < n <= p.batch
    case Count(id) => id in s.flight && s.flight[id].Counting?
    case Midnight(day) => day > s.today
  }

  ghost function Apply(p: Plan, s: State, step: Step): State
    requires Enabled(p, s, step)
  {
    match step
    case Begin(id) => s.(flight := s.flight[id := Started(s.today)])
    case Check(id) =>
      if RateLimiter.QuotaSpent(p.quota, Used(s, s.flight[id].day)) then s.(flight := s.flight - {id})
      else s.(flight := s.flight[id := Admitted])
    case Leave(id) => s.(flight := s.flight - {id})
    case Respond(id, n) => s.(flight := s.flight[id := Counting(s.today, n)])
    case Count(id) =>
      var c := s.flight[id];
      State(s.today, s.used[c.day := Used(s, c.day) + c.n], s.flight - {id})
    case Midnight(day) => s.(today := day)
  }

  ghost predicate Legal(p: Plan, steps: seq<Step>) {
    steps == [] ||
    (Legal(p, steps[..|steps| - 1]) && Enabled(p, End(p, steps[..|steps| - 1]), steps[|steps| - 1]))
  }

  ghost function End(p: Plan, steps: seq<Step>): State {
    if steps == [] then INIT else
    var before := End(p, steps[..|steps| - 1]);
    if Enabled(p, before, steps[|steps| - 1]) then Apply(p, before, steps[|steps| - 1]) else before
  }

  // ----- the bound ------------------------------------------------------------------

  /** The request may still add to the counter of `day` without checking that counter. */
  ghost predicate Threatens(phase: Phase, today: nat, day: nat) {
    match phase
    case Started(d) => d < day && today <= day
    case Admitted => today <= day
    case Counting(d, n) => d == day
  }

  ghost function Threats(s: State, day: nat): set<nat> {
    set id | id in s.flight && Threatens(s.flight[id], s.today, day)
  }

  ghost predicate Inv(p: Plan, s: State) {
    && |s.flight| <= p.inFlight
    && (forall id :: id in s.flight && s.flight[id].Started? ==> s.flight[id].day <= s.today)
    && (forall id :: id in s.flight && s.flight[id].Counting? ==>
        s.flight[id].day <= s.today && s.flight[id].n <= p.batch)
    && (forall day: nat :: day > s.today ==> Used(s, day) == 0)
    && (forall day: nat :: Used(s, day) + p.batch * |Threats(s, day)| <= p.Limit())
  }

  /** Fewer threats to a counter that has not grown. */
  lemma {:induction false} NoMoreThreats(p: Plan, s: State, t: State, day: nat)
    requires Used(t, day) <= Used(s, day) && Threats(t, day) <= Threats(s, day)
    ensures Used(t, day) + p.batch * |Threats(t, day)| <= Used(s, day) + p.batch * |Threats(s, day)|
  {
    SubsetSize(Threats(t, day), Threats(s, day));
    Multiply(p.batch, |Threats(t, day)|, |Threats(s, day)|);
  }

  /** A counter still under quota can take on every request that may be in flight. */
  lemma {:induction false} RoomForAll(p: Plan, t: State, day: nat)
    requires |t.flight| <= p.inFlight && Used(t, day) <= p.quota - 1
    ensures Used(t, day) + p.batch * |Threats(t, day)| <= p.Limit()
  {
    SubsetSize(Threats(t, day), t.flight.Keys);
    Multiply(p.batch, |Threats(t, day)|, p.inFlight);
    assert p.batch * p.inFlight == p.inFlight * p.batch;
  }

  lemma {:induction false} RemoveSize(m: map<nat, Phase>, id: nat)
    requires id in m
    ensures |m - {id}| == |m| - 1
  {
    assert (m - {id}).Keys == m.Keys - {id};
  }

  lemma {:induction false} CountKeeps(p: Plan, s: State, id: nat, day: nat)
    requires p.Valid() && Inv(p, s) && Enabled(p, s, Count(id))
    ensures var t := Apply(p, s, Count(id)); Used(t, day) + p.batch * |Threats(t, day)| <= p.Limit()
  {
    var t := Apply(p, s, Count(id));
    if day == s.flight[id].day {
      assert Threats(t, day) == Threats(s, day) - {id};
      assert |Threats(t, day)| == |Threats(s, day)| - 1;
      assert p.batch * (|Threats(s, day)| - 1) == p.batch * |Threats(s, day)| - p.batch;
    } else {
      assert Threats(t, day) <= Threats(s, day);
      NoMoreThreats(p, s, t, day);
    }
  }

  /** Every step keeps each day's counter, with what may still be added to it, within the
      limit. */
  lemma {:induction false} StepKeepsInv(p: Plan, s: State, step: Step)
    requires p.Valid() && Inv(p, s) && Enabled(p, s, step)
    ensures Inv(p, Apply(p, s, step))
  {
    var t := Apply(p, s, step);
    StepKeepsFlight(p, s, step);
    forall day: nat
      ensures Used(t, day) + p.batch * |Threats(t, day)| <= p.Limit()
    {
      StepKeepsDay(p, s, step, day);
    }
    forall day: nat | day > t.today
      ensures Used(t, day) == 0
    {
      assert Used(s, day) == 0;
    }
    hide Threats;
  }

  lemma {:induction false} StepKeepsFlight(p: Plan, s: State, step: Step)
    requires Inv(p, s) && Enabled(p, s, step)
    ensures |Apply(p, s, step).flight| <= p.inFlight
  {
    hide Threats;
    if !step.Begin? && !step.Midnight? {
      RemoveSize(s.flight, step.id);
    }
  }

  lemma {:induction false} StepKeepsDay(p: Plan, s: State, step: Step, day: nat)
    requires p.Valid() && Inv(p, s) && Enabled(p, s, step) && |Apply(p, s, step).flight| <= p.inFlight
    ensures var t := Apply(p, s, step); Used(t, day) + p.batch * |Threats(t, day)| <= p.Limit()
  {
    var t := Apply(p, s, step);
    assert Used(s, day) + p.batch * |Threats(s, day)| <= p.Limit();
    match step {
      case Begin(id) =>
        if day > s.today { RoomForAll(p, t, day); } else { NoMoreThreats(p, s, t, day); }
      case Check(id) =>
        if day == s.today && day == s.flight[id].day && t.flight == s.flight[id := Admitted] {
          RoomForAll(p, t, day);
        } else {
          NoMoreThreats(p, s, t, day);
        }
      case Count(id) => CountKeeps(p, s, id, day);
      case Leave(id) => NoMoreThreats(p, s, t, day);
      case Respond(id, n) => NoMoreThreats(p, s, t, day);
      case Midnight(d) => NoMoreThreats(p, s, t, day);
    }
  }

  lemma {:induction false} RunsKeepInv(p: Plan, steps: seq<Step>)
    requires p.Valid() && Legal(p, steps)
    ensures Inv(p, End(p, steps))
    decreases |steps|
  {
    if steps == [] {
      forall day: nat ensures Used(INIT, day) + p.batch * |Threats(INIT, day)| <= p.Limit() {
        RoomForAll(p, INIT, day);
      }
    } else {
      RunsKeepInv(p, steps[..|steps| - 1]);
      StepKeepsInv(p, End(p, steps[..|steps| - 1]), steps[|steps| - 1]);
    }
  }

  /** No day's counter ever exceeds quota - 1 + K * B, whatever the interleaving and
      however many requests run across midnight. */
  lemma {:induction false} QuotaOvershootBound(p: Plan, steps: seq<Step>, day: nat)
    requires p.Valid() && Legal(p, steps)
    ensures Used(End(p, steps), day) <= p.quota - 1 + p.inFlight * p.batch
  {
    RunsKeepInv(p, steps);
    var s := End(p, steps);
    Multiply(p.batch, 0, |Threats(s, day)|);
  }

  // ----- the bound is reached -------------------------------------------------------

  lemma {:induction false} Extend(p: Plan, steps: seq<Step>, step: Step)
    requires Legal(p, steps) && Enabled(p, End(p, steps), step)
    ensures Legal(p, steps + [step]) && End(p, steps + [step]) == Apply(p, End(p, steps), step)
  {
    assert (steps + [step])[..|steps|] == steps;
  }

  lemma {:induction false} NoSteps(p: Plan)
    ensures Legal(p, []) && End(p, []) == INIT
  {
  }

  /** A request that passes the check of today's counter. */
  lemma {:induction false} Admit(p: Plan, steps: seq<Step>, id: nat) returns (more: seq<Step>)
    requires p.Valid() && Legal(p, steps)
    requires var s := End(p, steps); id !in s.flight && |s.flight| < p.inFlight && Used(s, s.today) < p.quota
    ensures Legal(p, more) && End(p, more) == End(p, steps).(flight := End(p, steps).flight[id := Admitted])
  {
    Extend(p, steps, Begin(id));
    Extend(p, steps + [Begin(id)], Check(id));
    more := steps + [Begin(id)] + [Check(id)];
  }

  /** An admitted request that succeeds `n` times. */
  lemma {:induction false} Succeed(p: Plan, steps: seq<Step>, id: nat, n: nat) returns (more: seq<Step>)
    requires Legal(p, steps) && 0 < n <= p.batch
    requires id in End(p, steps).flight && End(p, steps).flight[id].Admitted?
    ensures Legal(p, more)
    ensures var s := End(p, steps);
            End(p, more) == State(s.today, s.used[s.today := Used(s, s.today) + n], s.flight - {id})
  {
    Extend(p, steps, Respond(id, n));
    Extend(p, steps + [Respond(id, n)], Count(id));
    more := steps + [Respond(id, n)] + [Count(id)];
  }

  /** Requests lo .. hi-1, all admitted. */
  ghost function Admissions(lo: nat, hi: nat): (m: map<nat, Phase>)
    ensures forall id :: id in m <==> lo <= id < hi
    ensures forall id :: id in m ==> m[id] == Admitted
    ensures |m| == if lo <= hi then hi - lo else 0
  {
    if lo >= hi then map[] else Admissions(lo, hi - 1)[hi - 1 := Admitted]
  }

  /** Single successes, one request at a time, then `j` requests at once past the check. */
  lemma {:induction false} FillAndAdmit(p: Plan, m: nat, j: nat) returns (steps: seq<Step>)
    requires p.Valid() && p.batch >= 1 && m < p.quota && j <= p.inFlight && 1 <= p.inFlight
    ensures Legal(p, steps) && End(p, steps).today == 0 && End(p, steps).flight == Admissions(0, j)
    ensures Used(End(p, steps), 0) == m
    decreases m, j
  {
    hide Legal, End;
    NoSteps(p);
    if j > 0 {
      steps := FillAndAdmit(p, m, j - 1);
      steps := Admit(p, steps, j - 1);
    } else if m > 0 {
      steps := FillAndAdmit(p, m - 1, 0);
      steps := Admit(p, steps, 0);
      steps := Succeed(p, steps, 0, 1);
    } else {
      steps := [];
    }
  }

  lemma {:induction false} FewerAdmissions(lo: nat, hi: nat)
    ensures Admissions(lo, hi) - {lo} == Admissions(lo + 1, hi)
  {
  }

  /** All of them succeed with full batches. */
  lemma {:induction false} SucceedMany(p: Plan, j: nat) returns (steps: seq<Step>)
    requires p.Valid() && p.batch >= 1 && 1 <= p.inFlight && j <= p.inFlight
    ensures Legal(p, steps) && End(p, steps).today == 0 && End(p, steps).flight == Admissions(j, p.inFlight)
    ensures Used(End(p, steps), 0) == p.quota - 1 + j * p.batch
    decreases j
  {
    hide Legal, End;
    if j == 0 {
      steps := FillAndAdmit(p, p.quota - 1, p.inFlight);
    } else {
      steps := SucceedMany(p, j - 1);
      steps := Succeed(p, steps, j - 1, p.batch);
      FewerAdmissions(j - 1, p.inFlight);
      OneMoreTime(j, p.batch);
    }
  }

  /** The bound cannot be improved: some run reaches it. */
  lemma {:induction false} BoundIsReached(p: Plan)
    requires p.Valid() && p.inFlight >= 1 && p.batch >= 1
    ensures exists steps :: Legal(p, steps) && Used(End(p, steps), 0) == p.quota - 1 + p.inFlight * p.batch
  {
    var steps := SucceedMany(p, p.inFlight);
  }

  /** Every run keeps every day within the quota. */
  ghost predicate NeverOver(p: Plan) {
    forall steps, day: nat :: Legal(p, steps) ==> Used(End(p, steps), day) <= p.quota
  }

  /** The quota is never overshot if and only if at most one success can be in flight. */
  lemma {:induction false} NeverOverIff(p: Plan)
    requires p.Valid()
    ensures NeverOver(p) <==> p.inFlight * p.batch <= 1
  {
    if p.inFlight * p.batch <= 1 {
      forall steps, day: nat | Legal(p, steps)
        ensures Used(End(p, steps), day) <= p.quota
      {
        QuotaOvershootBound(p, steps, day);
      }
    } else {
      assert p.inFlight >= 1 && p.batch >= 1;
      BoundIsReached(p);
      var steps :| Legal(p, steps) && Used(End(p, steps), 0) == p.quota - 1 + p.inFlight * p.batch;
      assert Used(End(p, steps), 0) > p.quota;
    }
  }
}
