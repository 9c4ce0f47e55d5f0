/** The health hysteresis of one upstream node (internal/balancer/balancer.go:233-250). */
module NodeHealth {

  const MAX_INT32: int := 0x7fff_ffff
  type int32 = x: int | -MAX_INT32 - 1 <= x <= MAX_INT32

  /** atomic.Int32.Add(1), which wraps around. */
  function Inc(x: int32): int32 {
    if x == MAX_INT32 then -MAX_INT32 - 1 else x + 1
  }

  datatype Health = Health(healthy: bool, fails: int32, oks: int32)

  const FRESH := Health(true, 0, 0)

  /** Thresholds as validated configurations give them. */
  datatype Thresholds = Thresholds(unhealthy: int32, healthy: int32) {
    predicate Valid() { unhealthy >= 1 && healthy >= 1 }
  }

  function Succeeded(h: Health, t: Thresholds): Health {
    var oks := Inc(h.oks);
    if !h.healthy && oks >= t.healthy then Health(true, 0, 0) else Health(h.healthy, 0, oks)
  }

  function Failed(h: Health, t: Thresholds): Health {
    var fails := Inc(h.fails);
    Health(h.healthy && fails < t.unhealthy, fails, 0)
  }

  function Reported(h: Health, t: Thresholds, ok: bool): Health {
    if ok then Succeeded(h, t) else Failed(h, t)
  }

  /** The node after a trace of reports; `true` is a success. */
  ghost function After(t: Thresholds, reports: seq<bool>): Health {
    if reports == [] then FRESH else Reported(After(t, reports[..|reports| - 1]), t, reports[|reports| - 1])
  }

  // ----- health as a function of the history ----------------------------------------

  /** The first `n` reports end in `k` that are all `ok`. */
  ghost predicate EndsIn(reports: seq<bool>, n: nat, k: int, ok: bool)
    requires n <= |reports|
  {
    0 <= k <= n && forall i :: n - k <= i < n ==> reports[i] == ok
  }

  /** A prefix that decides the health: enough failures or enough successes in a row. */
  ghost predicate Decisive(t: Thresholds, reports: seq<bool>, n: nat)
    requires n <= |reports|
  {
    EndsIn(reports, n, t.unhealthy, false) || EndsIn(reports, n, t.healthy, true)
  }

  /** The most recent decisive prefix, if there is one, ends in successes. */
  ghost predicate HealthyByHistory(t: Thresholds, reports: seq<bool>) {
    forall n :: 0 <= n <= |reports| && Decisive(t, reports, n)
             && (forall m :: n < m <= |reports| ==> !Decisive(t, reports, m))
      ==> EndsIn(reports, n, t.healthy, true)
  }

  /** How many reports at the end are all `ok`. */
  ghost function Streak(reports: seq<bool>, ok: bool): nat {
    if reports == [] || reports[|reports| - 1] != ok then 0 else Streak(reports[..|reports| - 1], ok) + 1
  }

  lemma {:induction false} StreakIff(reports: seq<bool>, k: int, ok: bool)
    requires k >= 0
    ensures Streak(reports, ok) <= |reports|
    ensures EndsIn(reports, |reports|, k, ok) <==> Streak(reports, ok) >= k
    decreases |reports|
  {
    if reports != [] && k > 0 {
      var before := reports[..|reports| - 1];
      StreakIff(before, k - 1, ok);
      if EndsIn(reports, |reports|, k, ok) {
        assert reports[|reports| - 1] == ok;
        assert EndsIn(before, |before|, k - 1, ok);
      } else if reports[|reports| - 1] == ok && k <= |reports| {
        assert !EndsIn(before, |before|, k - 1, ok);
      }
    } else if reports != [] {
      StreakIff(reports[..|reports| - 1], 0, ok);
    }
  }

  /** The counters are streaks while they matter, so wrapping around never shows. */
  lemma {:induction false} CountersAreStreaks(t: Thresholds, reports: seq<bool>)
    requires t.Valid()
    ensures var h := After(t, reports);
            && (h.healthy ==> Streak(reports, false) < t.unhealthy && h.fails == Streak(reports, false))
            && (!h.healthy ==> Streak(reports, true) < t.healthy && h.oks == Streak(reports, true))
    decreases |reports|
  {
    if reports != [] {
      CountersAreStreaks(t, reports[..|reports| - 1]);
    }
  }

  /** Adding a report changes the verdict of history only if it completes a streak. */
  lemma {:induction false} HistoryStep(t: Thresholds, reports: seq<bool>)
    requires t.Valid() && reports != []
    ensures var before, n := reports[..|reports| - 1], |reports|;
            HealthyByHistory(t, reports) <==>
              if EndsIn(reports, n, t.healthy, true) then true
              else if EndsIn(reports, n, t.unhealthy, false) then false
              else HealthyByHistory(t, before)
  {
    var before, n := reports[..|reports| - 1], |reports|;
    forall m | 0 <= m <= |before|
      ensures Decisive(t, before, m) <==> Decisive(t, reports, m)
      ensures EndsIn(before, m, t.healthy, true) <==> EndsIn(reports, m, t.healthy, true)
    {
    }
    if Decisive(t, reports, n) {
      if !EndsIn(reports, n, t.healthy, true) {
        assert !HealthyByHistory(t, reports);
      }
    } else {
      assert HealthyByHistory(t, before) ==> HealthyByHistory(t, reports);
      assert HealthyByHistory(t, reports) ==> HealthyByHistory(t, before);
    }
  }

  /** A node is healthy exactly when its report history says so. */
  lemma {:induction false} HealthIsHistory(t: Thresholds, reports: seq<bool>)
    requires t.Valid()
    ensures After(t, reports).healthy <==> HealthyByHistory(t, reports)
    decreases |reports|
  {
    if reports != [] {
      HealthIsHistory(t, reports[..|reports| - 1]);
      HistoryStep(t, reports);
      CountersAreStreaks(t, reports[..|reports| - 1]);
      CountersAreStreaks(t, reports);
      StreakIff(reports, t.healthy, true);
      StreakIff(reports, t.unhealthy, false);
    }
  }

  /** The machine with counters that never wrap. */
  ghost function UnboundedHealthy(t: Thresholds, reports: seq<bool>): (bool, nat, nat) {
    if reports == [] then (true, 0, 0) else
    var (healthy, fails, oks) := UnboundedHealthy(t, reports[..|reports| - 1]);
    if reports[|reports| - 1] then
      if !healthy && oks + 1 >= t.healthy then (true, 0, 0) else (healthy, 0, oks + 1)
    else (healthy && fails + 1 < t.unhealthy, fails + 1, 0)
  }

  /** int32 wrap-around never changes the health. */
  lemma {:induction false} WrapAroundIsInvisible(t: Thresholds, reports: seq<bool>)
    requires t.Valid()
    ensures After(t, reports).healthy == UnboundedHealthy(t, reports).0
    ensures var (healthy, fails, oks) := UnboundedHealthy(t, reports);
            && (healthy ==> fails == Streak(reports, false)) && (!healthy ==> oks == Streak(reports, true))
    decreases |reports|
  {
    if reports != [] {
      WrapAroundIsInvisible(t, reports[..|reports| - 1]);
      CountersAreStreaks(t, reports[..|reports| - 1]);
    }
  }

  // ----- interleaved reports --------------------------------------------------------

  /** One atomic operation on the node, as it takes effect. */
  datatype Atom = ResetFails | AddFail | ResetOks | AddOk | SetHealthy | SetUnhealthy

  /** Where a reporter stands, with what its own Add returned. */
  datatype Reporter =
    | S0 | S1 | S2(oks: int32) | S3(oks: int32) | S4   // ReportSuccess
    | F0 | F1 | F2(fails: int32) | F3(fails: int32)    // ReportFailure

  datatype Shared = Shared(node: Health, reporters: map<nat, Reporter>, trace: seq<Atom>)

  /** A report begins, or a reporter executes its next atomic operation. */
  datatype Move = Report(id: nat, ok: bool) | Go(id: nat)

  ghost predicate Can(s: Shared, m: Move) {
    if m.Report? then m.id !in s.reporters else m.id in s.reporters
  }

  function At(s: Shared, id: nat, r: Reporter): Shared {
    s.(reporters := s.reporters[id := r])
  }

  function Did(s: Shared, node: Health, a: Atom): Shared {
    Shared(node, s.reporters, s.trace + [a])
  }

  function Done(s: Shared, id: nat): Shared {
    s.(reporters := s.reporters - {id})
  }

  function Move1(t: Thresholds, s: Shared, m: Move): Shared
    requires m.Go? ==> m.id in s.reporters
  {
    var n := s.node;
    match m
    case Report(id, ok) => At(s, id, if ok then S0 else F0)
    case Go(id) =>
      match s.reporters[id]
      case S0 => At(Did(s, n.(fails := 0), ResetFails), id, S1)
      case S1 => At(Did(s, n.(oks := Inc(n.oks)), AddOk), id, S2(Inc(n.oks)))
      case S2(oks) => if !n.healthy && oks >= t.healthy then At(s, id, S3(oks)) else Done(s, id)
      case S3(oks) => At(Did(s, n.(healthy := true), SetHealthy), id, S4)
      case S4 => Done(Did(s, n.(oks := 0), ResetOks), id)
      case F0 => At(Did(s, n.(oks := 0), ResetOks), id, F1)
      case F1 => At(Did(s, n.(fails := Inc(n.fails)), AddFail), id, F2(Inc(n.fails)))
      case F2(fails) => if n.healthy && fails >= t.unhealthy then At(s, id, F3(fails)) else Done(s, id)
      case F3(fails) => Done(Did(s, n.(healthy := false), SetUnhealthy), id)
  }

  ghost predicate Possible(t: Thresholds, moves: seq<Move>) {
    moves == [] ||
    (Possible(t, moves[..|moves| - 1]) && Can(Reach(t, moves[..|moves| - 1]), moves[|moves| - 1]))
  }

  ghost function Reach(t: Thresholds, moves: seq<Move>): Shared {
    if moves == [] then Shared(FRESH, map[], []) else
    var before := Reach(t, moves[..|moves| - 1]);
    if Can(before, moves[|moves| - 1]) then Move1(t, before, moves[|moves| - 1]) else before
  }

  /** Adds since the last reset. */
  ghost function AddsSince(trace: seq<Atom>, add: Atom, reset: Atom): nat {
    if trace == [] || trace[|trace| - 1] == reset then 0
    else AddsSince(trace[..|trace| - 1], add, reset) + (if trace[|trace| - 1] == add then 1 else 0)
  }

  /** Some moment of the trace came at least `k` adds after the last reset before it. */
  ghost predicate Reached(trace: seq<Atom>, add: Atom, reset: Atom, k: int) {
    exists n :: 0 <= n <= |trace| && AddsSince(trace[..n], add, reset) >= k
  }

  /** Every store of a health flag is backed by a streak of adds without a reset. */
  ghost predicate Justified(t: Thresholds, trace: seq<Atom>) {
    forall i :: 0 <= i < |trace| ==>
      && (trace[i] == SetUnhealthy ==> Reached(trace[..i], AddFail, ResetFails, t.unhealthy))
      && (trace[i] == SetHealthy ==> Reached(trace[..i], AddOk, ResetOks, t.healthy))
  }

  ghost predicate Backed(t: Thresholds, trace: seq<Atom>, r: Reporter) {
    match r
    case S2(oks) => Reached(trace, AddOk, ResetOks, oks)
    case S3(oks) => oks >= t.healthy && Reached(trace, AddOk, ResetOks, oks)
    case F2(fails) => Reached(trace, AddFail, ResetFails, fails)
    case F3(fails) => fails >= t.unhealthy && Reached(trace, AddFail, ResetFails, fails)
    case _ => true
  }

  ghost predicate Inv(t: Thresholds, s: Shared) {
    && s.node.fails <= AddsSince(s.trace, AddFail, ResetFails)
    && s.node.oks <= AddsSince(s.trace, AddOk, ResetOks)
    && Justified(t, s.trace)
    && (forall id :: id in s.reporters ==> Backed(t, s.trace, s.reporters[id]))
  }

  lemma {:induction false} ReachedStays(trace: seq<Atom>, a: Atom, add: Atom, reset: Atom, k: int)
    requires Reached(trace, add, reset, k)
    ensures Reached(trace + [a], add, reset, k)
  {
    var n :| 0 <= n <= |trace| && AddsSince(trace[..n], add, reset) >= k;
    assert (trace + [a])[..n] == trace[..n];
  }

  lemma {:induction false} ReachedNow(trace: seq<Atom>, add: Atom, reset: Atom, k: int)
    requires AddsSince(trace, add, reset) >= k
    ensures Reached(trace, add, reset, k)
  {
    assert trace[..|trace|] == trace;
  }

  lemma {:induction false} ReachedLess(trace: seq<Atom>, add: Atom, reset: Atom, k: int, j: int)
    requires Reached(trace, add, reset, k) && j <= k
    ensures Reached(trace, add, reset, j)
  {
    var n :| 0 <= n <= |trace| && AddsSince(trace[..n], add, reset) >= k;
    assert AddsSince(trace[..n], add, reset) >= j;
  }

  /** What one more atomic operation does to the invariant, apart from its own reporter. */
  lemma {:induction false} DidKeeps(t: Thresholds, s: Shared, node: Health, a: Atom)
    requires Inv(t, s)
    requires node.fails <= AddsSince(s.trace + [a], AddFail, ResetFails)
    requires node.oks <= AddsSince(s.trace + [a], AddOk, ResetOks)
    requires a == SetUnhealthy ==> Reached(s.trace, AddFail, ResetFails, t.unhealthy)
    requires a == SetHealthy ==> Reached(s.trace, AddOk, ResetOks, t.healthy)
    ensures Inv(t, Did(s, node, a))
  {
    var trace := s.trace + [a];
    forall i | 0 <= i < |trace|
      ensures trace[i] == SetUnhealthy ==> Reached(trace[..i], AddFail, ResetFails, t.unhealthy)
      ensures trace[i] == SetHealthy ==> Reached(trace[..i], AddOk, ResetOks, t.healthy)
    {
      assert trace[..i] == s.trace[..i];
      assert s.trace[..|s.trace|] == s.trace;
    }
    forall id | id in s.reporters
      ensures Backed(t, trace, s.reporters[id])
    {
      var r := s.reporters[id];
      if r.S2? || r.S3? { ReachedStays(s.trace, a, AddOk, ResetOks, r.oks); }
      if r.F2? || r.F3? { ReachedStays(s.trace, a, AddFail, ResetFails, r.fails); }
    }
  }

  lemma {:induction false} AtKeeps(t: Thresholds, s: Shared, id: nat, r: Reporter)
    requires Inv(t, s) && Backed(t, s.trace, r)
    ensures Inv(t, At(s, id, r))
  {
  }

  lemma {:induction false} AddKeeps(t: Thresholds, s: Shared, id: nat, ok: bool)
    requires Inv(t, s)
    ensures var n := s.node;
            Inv(t, if ok then At(Did(s, n.(oks := Inc(n.oks)), AddOk), id, S2(Inc(n.oks)))
                   else At(Did(s, n.(fails := Inc(n.fails)), AddFail), id, F2(Inc(n.fails))))
  {
    var n, tr := s.node, s.trace;
    if ok {
      assert (tr + [AddOk])[..|tr|] == tr;
      DidKeeps(t, s, n.(oks := Inc(n.oks)), AddOk);
      ReachedNow(tr + [AddOk], AddOk, ResetOks, Inc(n.oks));
      AtKeeps(t, Did(s, n.(oks := Inc(n.oks)), AddOk), id, S2(Inc(n.oks)));
    } else {
      assert (tr + [AddFail])[..|tr|] == tr;
      DidKeeps(t, s, n.(fails := Inc(n.fails)), AddFail);
      ReachedNow(tr + [AddFail], AddFail, ResetFails, Inc(n.fails));
      AtKeeps(t, Did(s, n.(fails := Inc(n.fails)), AddFail), id, F2(Inc(n.fails)));
    }
  }

  lemma {:induction false} SetKeeps(t: Thresholds, s: Shared, id: nat, ok: bool)
    requires Inv(t, s) && id in s.reporters
    requires if ok then s.reporters[id].S3? else s.reporters[id].F3?
    ensures Inv(t, Did(s, s.node.(healthy := ok), if ok then SetHealthy else SetUnhealthy))
  {
    var n, tr := s.node, s.trace;
    if ok {
      assert (tr + [SetHealthy])[..|tr|] == tr;
      ReachedLess(tr, AddOk, ResetOks, s.reporters[id].oks, t.healthy);
      DidKeeps(t, s, n.(healthy := true), SetHealthy);
    } else {
      assert (tr + [SetUnhealthy])[..|tr|] == tr;
      ReachedLess(tr, AddFail, ResetFails, s.reporters[id].fails, t.unhealthy);
      DidKeeps(t, s, n.(healthy := false), SetUnhealthy);
    }
  }

  lemma {:induction false} DoneKeeps(t: Thresholds, s: Shared, id: nat)
    requires Inv(t, s)
    ensures Inv(t, Done(s, id))
  {
  }

  lemma {:induction false} ResetKeeps(t: Thresholds, s: Shared, fails: bool)
    requires Inv(t, s)
    ensures Inv(t, if fails then Did(s, s.node.(fails := 0), ResetFails) else Did(s, s.node.(oks := 0), ResetOks))
  {
    if fails {
      assert (s.trace + [ResetFails])[..|s.trace|] == s.trace;
      DidKeeps(t, s, s.node.(fails := 0), ResetFails);
    } else {
      assert (s.trace + [ResetOks])[..|s.trace|] == s.trace;
      DidKeeps(t, s, s.node.(oks := 0), ResetOks);
    }
  }

  lemma {:induction false} SuccessMoveKeepsInv(t: Thresholds, s: Shared, id: nat)
    requires t.Valid() && Inv(t, s) && id in s.reporters
    requires var r := s.reporters[id]; r.S0? || r.S1? || r.S2? || r.S3? || r.S4?
    ensures Inv(t, Move1(t, s, Go(id)))
  {
    var n := s.node;
    match s.reporters[id] {
      case S0 => ResetKeeps(t, s, true); AtKeeps(t, Did(s, n.(fails := 0), ResetFails), id, S1);
      case S1 => AddKeeps(t, s, id, true);
      case S2(oks) => DoneKeeps(t, s, id); if oks >= t.healthy { AtKeeps(t, s, id, S3(oks)); }
      case S3(oks) => SetKeeps(t, s, id, true); AtKeeps(t, Did(s, n.(healthy := true), SetHealthy), id, S4);
      case S4 => ResetKeeps(t, s, false); DoneKeeps(t, Did(s, n.(oks := 0), ResetOks), id);
    }
  }

  lemma {:induction false} FailureMoveKeepsInv(t: Thresholds, s: Shared, id: nat)
    requires t.Valid() && Inv(t, s) && id in s.reporters
    requires var r := s.reporters[id]; r.F0? || r.F1? || r.F2? || r.F3?
    ensures Inv(t, Move1(t, s, Go(id)))
  {
    var n := s.node;
    match s.reporters[id] {
      case F0 => ResetKeeps(t, s, false); AtKeeps(t, Did(s, n.(oks := 0), ResetOks), id, F1);
      case F1 => AddKeeps(t, s, id, false);
      case F2(fails) => DoneKeeps(t, s, id); if fails >= t.unhealthy { AtKeeps(t, s, id, F3(fails)); }
      case F3(fails) => SetKeeps(t, s, id, false); DoneKeeps(t, Did(s, n.(healthy := false), SetUnhealthy), id);
    }
  }

  lemma {:induction false} MoveKeepsInv(t: Thresholds, s: Shared, id: nat)
    requires t.Valid() && Inv(t, s) && id in s.reporters
    ensures Inv(t, Move1(t, s, Go(id)))
  {
    var r := s.reporters[id];
    if r.F0? || r.F1? || r.F2? || r.F3? {
      FailureMoveKeepsInv(t, s, id);
    } else {
      SuccessMoveKeepsInv(t, s, id);
    }
  }

  /** Under every interleaving, a node is marked down only after enough failures with no
      success in between have been counted, and up only after enough successes with no
      failure in between. */
  lemma {:induction false} HealthChangesAreJustified(t: Thresholds, moves: seq<Move>)
    requires t.Valid() && Possible(t, moves)
    ensures Inv(t, Reach(t, moves)) && Justified(t, Reach(t, moves).trace)
    decreases |moves|
  {
    if moves != [] {
      HealthChangesAreJustified(t, moves[..|moves| - 1]);
      var s, m := Reach(t, moves[..|moves| - 1]), moves[|moves| - 1];
      if m.Go? {
        MoveKeepsInv(t, s, m.id);
      }
    }
  }

  /** Reporter `id` runs on until it is done, `n` moves at most. */
  ghost function RunAlone(t: Thresholds, s: Shared, id: nat, n: nat): Shared
    decreases n
  {
    if n == 0 || id !in s.reporters then s else RunAlone(t, Move1(t, s, Go(id)), id, n - 1)
  }

  /** Without interruption the atomic operations add up to the report. */
  lemma {:induction false} UninterruptedReport(t: Thresholds, s: Shared, id: nat, ok: bool)
    requires id !in s.reporters
    ensures var end := RunAlone(t, Move1(t, s, Report(id, ok)), id, 5);
            end.node == Reported(s.node, t, ok) && end.reporters == s.reporters
  {
    var r0 := Move1(t, s, Report(id, ok));
    var r1 := Move1(t, r0, Go(id));
    var r2 := Move1(t, r1, Go(id));
    var r3 := Move1(t, r2, Go(id));
    assert RunAlone(t, r0, id, 5) == RunAlone(t, r1, id, 4) == RunAlone(t, r2, id, 3) == RunAlone(t, r3, id, 2);
    if id in r3.reporters {
      var r4 := Move1(t, r3, Go(id));
      assert RunAlone(t, r3, id, 2) == RunAlone(t, r4, id, 1);
      if id in r4.reporters {
        var r5 := Move1(t, r4, Go(id));
        assert RunAlone(t, r4, id, 1) == RunAlone(t, r5, id, 0) == r5;
        assert r5.reporters == s.reporters;
      } else {
        assert r4.reporters == s.reporters;
      }
    } else {
      assert r3.reporters == s.reporters;
    }
  }
}
