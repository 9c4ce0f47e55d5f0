/** The bound of `Failover.BoundedFailures` is reached: WebSocket picks, which share the
    counter with requests (internal/balancer/balancer.go:350), can steer every request to a
    dead upstream twice. */
module FailoverTight {
  import opened Sums
  import opened RoundRobin
  import opened NodeHealth
  import opened Balancer
  import Failover

  // ----- a pool of d dead nodes and a live one --------------------------------------

  const LIVE := "y"

  /** The dead nodes have weight 2, the live one comes last and has weight 1. */
  function Url(d: nat, i: nat): string { if i < d then seq(i + 1, _ => 'x') else LIVE }

  function Weight(d: nat, i: nat): int { if i < d then 2 else 1 }

  /** Nodes before `a` are taken out, and `a` has failed `f` times. */
  function HealthOf(t: Thresholds, a: nat, f: int32, i: nat): Health {
    if i < a then Health(false, t.unhealthy, 0) else if i == a then Health(true, f, 0) else FRESH
  }

  function NodeOf(d: nat, t: Thresholds, a: nat, f: int32, i: nat): NodeView {
    NodeView("", Url(d, i), "ws", Weight(d, i), HealthOf(t, a, f, i))
  }

  function PoolOf(d: nat, t: Thresholds, a: nat, f: int32, rr: nat): (p: PoolView)
    ensures p.Valid()
  {
    PoolView(seq(d + 1, i requires 0 <= i < d + 1 => NodeOf(d, t, a, f, i)), rr, t)
  }

  const WORLD := Failover.World(url => url != LIVE)

  function Forward(url: string): Failover.Reply {
    if url == LIVE then Failover.Answer(200, 0, 0) else Failover.Broken
  }

  const REQUEST := Failover.Request(Forward)

  /** Who takes turns while nodes a .. d-1 and the live one are in. */
  function Shares(d: nat, a: nat): seq<Share>
    requires a <= d
  {
    seq(d - a + 1, k requires 0 <= k < d - a + 1 => Share(a + k, Weight(d, a + k)))
  }

  lemma {:induction false} Selected(d: nat, t: Thresholds, a: nat, f: int32, n: nat, keep: NodeView -> bool)
    requires a <= d && n <= d + 1
    requires forall i :: 0 <= i <= d ==> (keep(NodeOf(d, t, a, f, i)) <==> a <= i)
    ensures var nodes := PoolOf(d, t, a, f, 0).nodes;
            Select(nodes[..n], keep) == if n <= a then [] else Shares(d, a)[..n - a]
    decreases n
  {
    var nodes := PoolOf(d, t, a, f, 0).nodes;
    if n > 0 {
      Selected(d, t, a, f, n - 1, keep);
      assert nodes[..n][..n - 1] == nodes[..n - 1];
    }
  }

  lemma {:induction false} BothTakeTurns(d: nat, t: Thresholds, a: nat, f: int32, rr: nat)
    requires a <= d
    ensures forall kind :: Turns(PoolOf(d, t, a, f, rr), kind) == Shares(d, a)
  {
    var p := PoolOf(d, t, a, f, rr);
    Selected(d, t, a, f, d + 1, Up);
    Selected(d, t, a, f, d + 1, UpWithWS);
    assert p.nodes[..d + 1] == p.nodes && Shares(d, a)[..d + 1 - a] == Shares(d, a);
  }

  lemma {:induction false} SharesArePositive(d: nat, a: nat)
    requires a <= d
    ensures Positive(Shares(d, a)) && Weights(Shares(d, a))[0] == Weight(d, a)
  {
    forall k | 0 <= k < |Shares(d, a)| ensures Shares(d, a)[k].weight >= 1 {
      assert Shares(d, a)[k] == Share(a + k, Weight(d, a + k));
    }
  }

  lemma {:induction false} Places(d: nat, a: nat, k: nat)
    requires a <= d && k <= d - a + 1
    ensures Positive(Shares(d, a)) && Start(Weights(Shares(d, a)), k) == if k <= d - a then 2 * k else 2 * k - 1
    decreases k
  {
    SharesArePositive(d, a);
    if k > 0 {
      Places(d, a, k - 1);
      assert Weights(Shares(d, a))[k - 1] == Shares(d, a)[k - 1].weight == Weight(d, a + k - 1);
    }
  }

  /** The number of places in a turn. */
  function All(d: nat, a: nat): int { 2 * (d - a) + 1 }

  /** A pick steps the counter; the first two places belong to node `a`. */
  lemma {:induction false} Pick(d: nat, t: Thresholds, a: nat, f: int32, rr: nat, kind: Transport)
    requires a <= d && rr < All(d, a)
    ensures var (q, i) := NextTurn(PoolOf(d, t, a, f, rr), kind);
            var next := if rr + 1 == All(d, a) then 0 else rr + 1;
            && q == PoolOf(d, t, a, f, next) && i.Some?
            && (next <= 1 && a < d ==> i == Some(a))
            && (a == d ==> i == Some(d))
  {
    var p, s := PoolOf(d, t, a, f, rr), Shares(d, a);
    BothTakeTurns(d, t, a, f, rr);
    SharesArePositive(d, a);
    Places(d, a, d - a + 1);
    assert Whole(Weights(s)) == All(d, a);
    assert Turns(p, kind) == s != [] && s[0].node == a;
    hide Shares, Turns, Weights, Whole, NextTurn;
    OneTurn(p, kind, s);
    var next := Mod(rr + 1, All(d, a));
    OwnerIff(Weights(s), next, 0);
  }

  // ----- one failed request ---------------------------------------------------------

  /** Where a failure of node `a` leads. */
  function Next(t: Thresholds, a: nat, f: int32): (nat, int32)
    requires f < t.unhealthy
  {
    if f + 1 < t.unhealthy then (a, f + 1) else (a + 1, 0)
  }

  lemma {:induction false} Reporting(d: nat, t: Thresholds, a: nat, f: int32, rr: nat)
    requires a < d && 0 <= f < t.unhealthy
    ensures var (b, g) := Next(t, a, f); WithReport(PoolOf(d, t, a, f, rr), a, false) == PoolOf(d, t, b, g, rr)
  {
    var (b, g) := Next(t, a, f);
    var p, q := WithReport(PoolOf(d, t, a, f, rr), a, false), PoolOf(d, t, b, g, rr);
    forall i | 0 <= i <= d ensures p.nodes[i] == q.nodes[i] {
    }
    assert p.nodes == q.nodes;
  }

  /** Unless it is the last failure of the last dead node, a request at place 0 picks that
      node and then a dead one again. */
  lemma {:induction false} RequestFails(d: nat, t: Thresholds, a: nat, f: int32)
    requires a < d && 0 <= f < t.unhealthy && Next(t, a, f).0 < d
    ensures var p, (b, g) := PoolOf(d, t, a, f, All(d, a) - 1), Next(t, a, f);
            Failover.Fails(p, REQUEST) && Failover.Step(WORLD, p, REQUEST) == PoolOf(d, t, b, g, 1)
  {
    var (b, g) := Next(t, a, f);
    Pick(d, t, a, f, All(d, a) - 1, Http);
    Reporting(d, t, a, f, 0);
    Pick(d, t, b, g, 0, Http);
    DeadUrls(d, a);
    DeadUrls(d, b);
    hide NextTurn, WithReport, Next, All, PoolView.Valid;
  }

  lemma {:induction false} DeadUrls(d: nat, i: nat)
    requires i < d
    ensures Forward(Url(d, i)) == Failover.Broken && Url(d, i) != LIVE
  {
    assert Url(d, i)[0] == 'x';
  }

  // ----- the whole run --------------------------------------------------------------

  lemma {:induction false} OneMore(p: PoolView, events: seq<Failover.Event>, e: Failover.Event)
    requires p.Valid()
    ensures var q := Failover.After(WORLD, p, events);
            && Failover.After(WORLD, p, events + [e]) == Failover.Step(WORLD, q, e)
            && Failover.Failures(WORLD, p, events + [e])
            == Failover.Failures(WORLD, p, events) + (if Failover.Fails(q, e) then 1 else 0)
  {
    assert (events + [e])[..|events|] == events;
  }

  /** A run from the fresh pool with `n` failed requests. */
  ghost predicate Reached(d: nat, t: Thresholds, events: seq<Failover.Event>, a: nat, f: int32, rr: nat, n: nat) {
    var p := PoolOf(d, t, 0, 0, 0);
    && (forall e :: e in events ==> WORLD.Allows(e))
    && Failover.After(WORLD, p, events) == PoolOf(d, t, a, f, rr) && Failover.Failures(WORLD, p, events) == n
  }

  /** WebSocket picks move the counter to the last place. */
  lemma {:induction false} Steers(d: nat, t: Thresholds, events: seq<Failover.Event>, a: nat, f: int32, rr: nat, n: nat)
    returns (more: seq<Failover.Event>)
    requires a <= d && rr < All(d, a) && Reached(d, t, events, a, f, rr, n)
    ensures Reached(d, t, more, a, f, All(d, a) - 1, n)
    decreases All(d, a) - rr
  {
    more := events;
    if rr < All(d, a) - 1 {
      OneMore(PoolOf(d, t, 0, 0, 0), events, Failover.PickWS);
      Pick(d, t, a, f, rr, WS);
      hide NextTurn;
      more := Steers(d, t, events + [Failover.PickWS], a, f, rr + 1, n);
    }
  }

  lemma {:induction false} Reaches(d: nat, t: Thresholds, n: nat)
    returns (events: seq<Failover.Event>, a: nat, f: int32, rr: nat)
    requires t.Valid() && d >= 1 && n <= d * t.unhealthy - 1
    ensures a < d && 0 <= f < t.unhealthy && a * t.unhealthy + f == n && rr <= 1
    ensures Reached(d, t, events, a, f, rr, n)
    decreases n
  {
    if n == 0 {
      events, a, f, rr := [], 0, 0, 0;
    } else {
      events, a, f, rr := Reaches(d, t, n - 1);
      events := Steers(d, t, events, a, f, rr, n - 1);
      NotTheLast(d, t, a, f);
      RequestFails(d, t, a, f);
      OneMore(PoolOf(d, t, 0, 0, 0), events, REQUEST);
      events, rr := events + [REQUEST], 1;
      var next := Next(t, a, f);
      a, f := next.0, next.1;
    }
  }

  lemma {:induction false} NotTheLast(d: nat, t: Thresholds, a: nat, f: int32)
    requires t.Valid() && a < d && 0 <= f < t.unhealthy && a * t.unhealthy + f < d * t.unhealthy - 1
    ensures var (b, g) := Next(t, a, f); b < d && b * t.unhealthy + g == a * t.unhealthy + f + 1
  {
    OneMoreTime(a + 1, t.unhealthy);
    OneMoreTime(d, t.unhealthy);
  }

  lemma {:induction false} AllDead(d: nat, t: Thresholds, n: nat)
    requires n <= d + 1
    ensures Failover.DeadOf(WORLD, PoolOf(d, t, 0, 0, 0), n) == if n <= d then n else d
    decreases n
  {
    if n > 0 {
      AllDead(d, t, n - 1);
      if n <= d {
        DeadUrls(d, n - 1);
      }
    }
  }

  /** For any thresholds and any number of dead upstreams there are a pool and a run that
      reach the bound. */
  lemma {:induction false} FailuresAreReached(d: nat, t: Thresholds)
    returns (w: Failover.World, p: PoolView, events: seq<Failover.Event>)
    requires t.Valid() && d >= 1
    ensures Failover.Untouched(p) && p.thresholds == t && Failover.DeadOf(w, p, |p.nodes|) == d
    ensures exists i :: 0 <= i < |p.nodes| && !w.Dead(p, i)
    ensures forall e :: e in events ==> w.Allows(e)
    ensures Failover.Failures(w, p, events) == d * t.unhealthy - 1
  {
    w, p := WORLD, PoolOf(d, t, 0, 0, 0);
    Multiply(t.unhealthy, 1, d);
    var a, f, rr;
    events, a, f, rr := Reaches(d, t, d * t.unhealthy - 1);
    AllDead(d, t, d + 1);
    assert !w.Dead(p, d);
  }
}
