/** How an HTTP request finds an upstream (internal/proxy/handler.go:82-119), and how often
    that can fail while some upstream lives. */
module Failover {
  import opened Sums
  import opened Balancer
  import opened NodeHealth

  /** What forwarding to a URL brings: an error, or a response with its status and the
      numbers of successful and failed calls counted in its body. */
  datatype Reply = Broken | Answer(status: int, successes: nat, errors: nat)

  datatype Outcome =
    | NoUpstream
    | Unavailable
    | Answered(node: nat, reply: Reply)

  /** The pick, the retry on another URL, and the health reports of one request. */
  function Serve(p: PoolView, forward: string -> Reply): (r: (PoolView, Outcome))
    requires p.Valid()
    ensures r.1.Answered? ==> r.1.node < |p.nodes| && r.1.reply.Answer?
  {
    var (p1, first) := NextTurn(p, Http);
    if first.None? then (p1, NoUpstream) else
    var i := first.value;
    var reply := forward(p.nodes[i].url);
    if reply.Answer? then (WithReport(p1, i, reply.status < 500), Answered(i, reply)) else
    var (p3, second) := NextTurn(WithReport(p1, i, false), Http);
    if second.Some? && p.nodes[second.value].url != p.nodes[i].url && forward(p.nodes[second.value].url).Answer? then
      var j := second.value;
      var reply := forward(p.nodes[j].url);
      (WithReport(p3, j, reply.status < 500), Answered(j, reply))
    else (p3, Unavailable)
  }

  /** What an upstream's health becomes: a broken forward and a status of 500 or more are
      failures, any other answer is a success. */
  function Judged(n: NodeView, t: Thresholds, reply: Reply): NodeView {
    n.(health := if reply.Answer? && reply.status < 500 then Succeeded(n.health, t) else Failed(n.health, t))
  }

  /** A request goes to the node whose turn it is, and once more, to the node whose turn is
      next, only if that forward broke. It is answered with the reply of the node asked last,
      and is without an upstream only if there are no nodes. The node asked first is judged by
      its reply, the second only if it answers, and no other node is. */
  lemma {:induction false} ServeIsTwoTries(p: PoolView, forward: string -> Reply)
    requires p.Valid()
    ensures var (q, outcome) := Serve(p, forward);
            var (p1, first) := NextTurn(p, Http);
            if p.nodes == [] then outcome == NoUpstream && q == p else
            && first.Some?
            && var i := first.value; var reply := forward(p.nodes[i].url);
               var judged := p1.(nodes := p.nodes[i := Judged(p.nodes[i], p.thresholds, reply)]);
               if reply.Answer? then outcome == Answered(i, reply) && q == judged else
               && judged.Valid()
               && var (p2, second) := NextTurn(judged, Http);
                  && second.Some?
                  && var j := second.value; var again := forward(p.nodes[j].url);
                     if again.Answer? then
                       outcome == Answered(j, again)
                       && q == p2.(nodes := p2.nodes[j := Judged(p.nodes[j], p.thresholds, again)])
                     else outcome == Unavailable && q == p2
  {
    PicksTheBest(p, Http);
    if p.nodes != [] {
      assert Eligible(p, Http, 0);
      var (p1, first) := NextTurn(p, Http);
      var p2 := WithReport(p1, first.value, false);
      PicksTheBest(p2, Http);
      assert Eligible(p2, Http, 0);
    }
    hide Turns;
  }

  // ----- a pool where each URL is dead or alive for good ----------------------------

  datatype Event =
    | Request(forward: string -> Reply)
    | Probe(node: nat)
    | PickWS

  /** Dead URLs break every forward and every probe; live ones answer below 500. */
  datatype World = World(dead: string -> bool)
  {
    ghost predicate Allows(e: Event) {
      e.Request? ==> forall url :: if dead(url) then e.forward(url).Broken?
                                   else e.forward(url).Answer? && e.forward(url).status < 500
    }

    predicate Dead(p: PoolView, i: nat)
      requires i < |p.nodes|
    {
      dead(p.nodes[i].url)
    }
  }

  function Step(w: World, p: PoolView, e: Event): (q: PoolView)
    requires p.Valid()
    ensures q.Valid()
  {
    match e
    case Request(forward) => Serve(p, forward).0
    case Probe(i) => if i < |p.nodes| then WithReport(p, i, !w.Dead(p, i)) else p
    case PickWS => NextTurn(p, WS).0
  }

  ghost function After(w: World, p: PoolView, events: seq<Event>): (q: PoolView)
    requires p.Valid()
    ensures q.Valid()
  {
    if events == [] then p else Step(w, After(w, p, events[..|events| - 1]), events[|events| - 1])
  }

  ghost predicate Fails(p: PoolView, e: Event)
    requires p.Valid()
  {
    e.Request? && Serve(p, e.forward).1.Unavailable?
  }

  ghost function Failures(w: World, p: PoolView, events: seq<Event>): nat
    requires p.Valid()
  {
    if events == [] then 0 else
    var before := events[..|events| - 1];
    Failures(w, p, before) + (if Fails(After(w, p, before), events[|events| - 1]) then 1 else 0)
  }

  /** How often node `i` is the first choice of a request. */
  ghost function FirstChoices(w: World, p: PoolView, events: seq<Event>, i: nat): nat
    requires p.Valid()
  {
    if events == [] then 0 else
    var before, last := events[..|events| - 1], events[|events| - 1];
    FirstChoices(w, p, before, i) +
      (if last.Request? && NextTurn(After(w, p, before), Http).1 == Some(i) then 1 else 0)
  }

  // ----- what is left to lose -------------------------------------------------------

  /** Failures that dead node `i` can still count before it is taken out. */
  ghost function Left(w: World, p: PoolView, i: nat): int
    requires i < |p.nodes|
  {
    if w.Dead(p, i) && p.nodes[i].health.healthy then p.thresholds.unhealthy - p.nodes[i].health.fails else 0
  }

  ghost function LeftOf(w: World, p: PoolView, n: nat): int
    requires n <= |p.nodes|
  {
    if n == 0 then 0 else LeftOf(w, p, n - 1) + Left(w, p, n - 1)
  }

  ghost function DeadOf(w: World, p: PoolView, n: nat): nat
    requires n <= |p.nodes|
  {
    if n == 0 then 0 else DeadOf(w, p, n - 1) + (if w.Dead(p, n - 1) then 1 else 0)
  }

  /** Live nodes are healthy, dead ones have not used up their failures unless taken out. */
  ghost predicate Inv(w: World, p: PoolView) {
    && p.Valid() && p.thresholds.Valid()
    && (exists i :: 0 <= i < |p.nodes| && !w.Dead(p, i))
    && (forall i :: 0 <= i < |p.nodes| && !w.Dead(p, i) ==> p.nodes[i].health.healthy)
    && (forall i :: 0 <= i < |p.nodes| && w.Dead(p, i) && p.nodes[i].health.healthy ==>
          0 <= p.nodes[i].health.fails < p.thresholds.unhealthy)
  }

  /** HTTP picks healthy nodes while there are any. */
  lemma {:induction false} PicksHealthy(w: World, p: PoolView)
    requires Inv(w, p)
    ensures NextTurn(p, Http).1.Some? && p.nodes[NextTurn(p, Http).1.value].health.healthy
    ensures NextTurn(p, Http).0 == p.(rr := NextTurn(p, Http).0.rr)
  {
    SelectShape(p.nodes, Up);
    var i :| 0 <= i < |p.nodes| && !w.Dead(p, i);
    assert Up(p.nodes[i]);
    OneTurn(p, Http, Turns(p, Http));
  }

  lemma {:induction false} LeftChangesAt(w: World, p: PoolView, q: PoolView, i: nat, n: nat)
    requires |p.nodes| == |q.nodes| && n <= |p.nodes| && i < |p.nodes|
    requires forall k :: 0 <= k < |p.nodes| && k != i ==> Left(w, q, k) == Left(w, p, k)
    ensures LeftOf(w, q, n) == LeftOf(w, p, n) + (if i < n then Left(w, q, i) - Left(w, p, i) else 0)
    decreases n
  {
    if n > 0 {
      LeftChangesAt(w, p, q, i, n - 1);
    }
  }

  lemma {:induction false} LeftIsEnough(w: World, p: PoolView, i: nat, n: nat)
    requires Inv(w, p) && n <= |p.nodes|
    ensures LeftOf(w, p, n) >= 0
    ensures i < n ==> LeftOf(w, p, n) >= Left(w, p, i)
    decreases n
  {
    if n > 0 {
      LeftIsEnough(w, p, i, n - 1);
    }
  }

  /** A report that agrees with the world keeps the invariant; a failure of a healthy dead
      node uses up one. */
  lemma {:induction false} ReportKeepsInv(w: World, p: PoolView, i: nat)
    requires Inv(w, p) && i < |p.nodes|
    ensures var q := WithReport(p, i, !w.Dead(p, i));
            && Inv(w, q)
            && (forall k :: 0 <= k < |p.nodes| ==> w.Dead(q, k) == w.Dead(p, k))
            && (forall k :: 0 <= k < |p.nodes| && k != i ==> Left(w, q, k) == Left(w, p, k))
            && Left(w, q, i) == Left(w, p, i) - (if w.Dead(p, i) && p.nodes[i].health.healthy then 1 else 0)
  {
    var q := WithReport(p, i, !w.Dead(p, i));
    var live :| 0 <= live < |p.nodes| && !w.Dead(p, live);
    assert !w.Dead(q, live);
  }

  lemma {:induction false} TurnKeepsInv(w: World, p: PoolView, rr: nat, n: nat)
    requires Inv(w, p) && n <= |p.nodes|
    ensures var q := p.(rr := rr);
            && Inv(w, q) && LeftOf(w, q, n) == LeftOf(w, p, n)
            && forall k :: 0 <= k < |p.nodes| ==> Left(w, q, k) == Left(w, p, k)
  {
    var q := p.(rr := rr);
    var live :| 0 <= live < |p.nodes| && !w.Dead(p, live);
    assert !w.Dead(q, live);
    if n > 0 {
      TurnKeepsInv(w, p, rr, n - 1);
    }
  }

  /** Both pools have the same nodes, apart from their health. */
  ghost predicate SameNodes(w: World, p: PoolView, q: PoolView) {
    && |p.nodes| == |q.nodes| && p.thresholds == q.thresholds
    && forall k :: 0 <= k < |p.nodes| ==> w.Dead(q, k) == w.Dead(p, k)
  }

  ghost predicate SameLeftovers(w: World, p: PoolView, q: PoolView) {
    SameNodes(w, p, q) && forall k :: 0 <= k < |p.nodes| ==> Left(w, q, k) == Left(w, p, k)
  }

  lemma {:induction false} Turned(w: World, p: PoolView)
    requires Inv(w, p)
    ensures var (q, pick) := NextTurn(p, Http);
            && Inv(w, q) && SameLeftovers(w, p, q) && q.nodes == p.nodes
            && pick.Some? && p.nodes[pick.value].health.healthy
            && (w.Dead(p, pick.value) ==> Left(w, p, pick.value) >= 1)
  {
    PicksHealthy(w, p);
    TurnKeepsInv(w, p, NextTurn(p, Http).0.rr, 0);
  }

  /** What the retry after a dead first choice leaves behind. */
  lemma {:induction false} Retry(w: World, p: PoolView, i: nat, forward: string -> Reply)
    requires Inv(w, p) && i < |p.nodes| && w.Dead(p, i) && w.Allows(Request(forward))
    ensures NextTurn(p, Http).1.Some?
    ensures var (q, j) := (NextTurn(p, Http).0, NextTurn(p, Http).1.value);
            && Inv(w, q) && SameLeftovers(w, p, q) && q.nodes == p.nodes
            && (w.Dead(p, j) ==> Left(w, q, j) >= 1)
            && (!w.Dead(p, j) ==> p.nodes[j].url != p.nodes[i].url && Inv(w, WithReport(q, j, true))
                                  && SameLeftovers(w, p, WithReport(q, j, true)))
  {
    Turned(w, p);
    var (q, j) := (NextTurn(p, Http).0, NextTurn(p, Http).1.value);
    ReportKeepsInv(w, q, j);
  }

  /** A request costs its first choice one failure if that is dead, and nobody else; if it
      fails, a healthy dead node is left over. */
  lemma {:induction false} RequestStep(w: World, p: PoolView, forward: string -> Reply)
    requires Inv(w, p) && w.Allows(Request(forward))
    ensures NextTurn(p, Http).1.Some?
    ensures var (q, outcome) := Serve(p, forward);
            var i := NextTurn(p, Http).1.value;
            && Inv(w, q) && SameNodes(w, p, q) && !outcome.NoUpstream?
            && (forall k :: 0 <= k < |p.nodes| ==>
                Left(w, q, k) == Left(w, p, k) - (if k == i && w.Dead(p, i) then 1 else 0))
            && (outcome.Unavailable? ==> w.Dead(p, i) && exists k :: 0 <= k < |p.nodes| && Left(w, q, k) >= 1)
  {
    Turned(w, p);
    if w.Dead(p, NextTurn(p, Http).1.value) {
      DeadFirstChoice(w, p, forward);
    } else {
      ReportKeepsInv(w, NextTurn(p, Http).0, NextTurn(p, Http).1.value);
    }
  }

  lemma {:induction false} DeadFirstChoice(w: World, p: PoolView, forward: string -> Reply)
    requires Inv(w, p) && w.Allows(Request(forward))
    requires NextTurn(p, Http).1.Some? && w.Dead(p, NextTurn(p, Http).1.value)
    ensures var (q, outcome) := Serve(p, forward);
            var i := NextTurn(p, Http).1.value;
            && Inv(w, q) && SameNodes(w, p, q) && !outcome.NoUpstream?
            && (forall k :: 0 <= k < |p.nodes| ==> Left(w, q, k) == Left(w, p, k) - (if k == i then 1 else 0))
            && (outcome.Unavailable? ==> exists k :: 0 <= k < |p.nodes| && Left(w, q, k) >= 1)
  {
    Turned(w, p);
    var p1, i := NextTurn(p, Http).0, NextTurn(p, Http).1.value;
    ReportKeepsInv(w, p1, i);
    var p2 := WithReport(p1, i, false);
    Retry(w, p2, i, forward);
    ServeAfterFailure(w, p, forward);
    hide Serve, NextTurn, WithReport, Inv, Left, LeftOf, PoolView.Valid;
  }

  /** A request whose first choice is dead, written out. */
  lemma {:induction false} ServeAfterFailure(w: World, p: PoolView, forward: string -> Reply)
    requires Inv(w, p) && w.Allows(Request(forward))
    requires NextTurn(p, Http).1.Some? && w.Dead(p, NextTurn(p, Http).1.value)
    ensures var i := NextTurn(p, Http).1.value;
            var p2 := WithReport(NextTurn(p, Http).0, i, false);
            && p2.Valid() && NextTurn(p2, Http).1.Some?
            && var (q, j) := (NextTurn(p2, Http).0, NextTurn(p2, Http).1.value);
               && |p2.nodes| == |p.nodes|
               && if w.Dead(p2, j) then Serve(p, forward) == (q, Unavailable) else
                  Serve(p, forward) == (WithReport(q, j, true), Answered(j, forward(p.nodes[j].url)))
  {
    Turned(w, p);
    var p1, i := NextTurn(p, Http).0, NextTurn(p, Http).1.value;
    ReportKeepsInv(w, p1, i);
    Retry(w, WithReport(p1, i, false), i, forward);
    hide Inv, NextTurn, Left, LeftOf, SameLeftovers;
  }

  lemma {:induction false} SameLeft(w: World, p: PoolView, q: PoolView, n: nat)
    requires |p.nodes| == |q.nodes| && n <= |p.nodes|
    requires forall k :: 0 <= k < |p.nodes| ==> Left(w, q, k) == Left(w, p, k)
    ensures LeftOf(w, q, n) == LeftOf(w, p, n)
    decreases n
  {
    if n > 0 {
      SameLeft(w, p, q, n - 1);
    }
  }

  /** What the event costs dead node `k` as first choice. */
  ghost function Cost(w: World, p: PoolView, e: Event, k: nat): nat
    requires p.Valid() && k < |p.nodes|
  {
    if e.Request? && NextTurn(p, Http).1 == Some(k) && w.Dead(p, k) then 1 else 0
  }

  /** Every step keeps the books: a failed request uses up one failure and does not use up
      the last. */
  lemma {:induction false} StepKeepsBooks(w: World, p: PoolView, e: Event)
    requires Inv(w, p) && w.Allows(e)
    ensures var q, n := Step(w, p, e), |p.nodes|;
            && Inv(w, q) && SameNodes(w, p, q)
            && LeftOf(w, q, n) <= LeftOf(w, p, n) - (if Fails(p, e) then 1 else 0)
            && (Fails(p, e) ==> LeftOf(w, q, n) >= 1)
            && (forall k :: 0 <= k < n ==> Left(w, q, k) <= Left(w, p, k) - Cost(w, p, e, k))
  {
    var q, n := Step(w, p, e), |p.nodes|;
    match e {
      case Request(forward) =>
        RequestKeepsBooks(w, p, forward);
      case Probe(i) =>
        if i < n {
          ReportKeepsInv(w, p, i);
          LeftChangesAt(w, p, q, i, n);
        }
      case PickWS =>
        TurnKeepsInv(w, p, q.rr, n);
    }
  }

  lemma {:induction false} RequestKeepsBooks(w: World, p: PoolView, forward: string -> Reply)
    requires Inv(w, p) && w.Allows(Request(forward))
    ensures var (q, outcome) := Serve(p, forward);
            var n := |p.nodes|;
            && Inv(w, q) && SameNodes(w, p, q)
            && LeftOf(w, q, n) <= LeftOf(w, p, n) - (if outcome.Unavailable? then 1 else 0)
            && (outcome.Unavailable? ==> LeftOf(w, q, n) >= 1)
            && (forall k :: 0 <= k < n ==> Left(w, q, k) <= Left(w, p, k) - Cost(w, p, Request(forward), k))
  {
    var (q, outcome) := Serve(p, forward);
    RequestStep(w, p, forward);
    hide Serve, NextTurn;
    LeftChangesAt(w, p, q, NextTurn(p, Http).1.value, |p.nodes|);
    if outcome.Unavailable? {
      var k :| 0 <= k < |p.nodes| && Left(w, q, k) >= 1;
      LeftIsEnough(w, q, k, |p.nodes|);
    }
  }

  /** Every node healthy and no failure counted yet. */
  ghost predicate Untouched(p: PoolView) {
    p.Valid() && p.thresholds.Valid() && forall i :: 0 <= i < |p.nodes| ==> p.nodes[i].health == FRESH
  }

  lemma {:induction false} AtFirst(w: World, p: PoolView, n: nat)
    requires Untouched(p) && n <= |p.nodes|
    ensures LeftOf(w, p, n) == DeadOf(w, p, n) * p.thresholds.unhealthy
    decreases n
  {
    if n > 0 {
      AtFirst(w, p, n - 1);
      OneMoreTime(DeadOf(w, p, n - 1) + 1, p.thresholds.unhealthy);
    }
  }

  lemma {:induction false} Books(w: World, p: PoolView, events: seq<Event>, d: nat)
    requires Untouched(p) && (exists i :: 0 <= i < |p.nodes| && !w.Dead(p, i))
    requires d < |p.nodes| && w.Dead(p, d)
    requires forall e :: e in events ==> w.Allows(e)
    ensures var q, n, all := After(w, p, events), |p.nodes|, DeadOf(w, p, |p.nodes|) * p.thresholds.unhealthy;
            && Inv(w, q) && SameNodes(w, p, q)
            && Failures(w, p, events) + LeftOf(w, q, n) <= all
            && Failures(w, p, events) + 1 <= all
            && FirstChoices(w, p, events, d) + Left(w, q, d) <= p.thresholds.unhealthy
    decreases |events|
  {
    AtFirst(w, p, |p.nodes|);
    if events == [] {
      LeftIsEnough(w, p, d, |p.nodes|);
    } else {
      var before, last := events[..|events| - 1], events[|events| - 1];
      Books(w, p, before, d);
      StepKeepsBooks(w, After(w, p, before), last);
    }
  }

  /** If some upstream lives and every URL is dead or alive for good, any run of requests,
      probes and WebSocket picks, however long, returns fewer than |D| * unhealthyThreshold
      "upstream unavailable" errors, where D are the dead nodes. */
  lemma {:induction false} BoundedFailures(w: World, p: PoolView, events: seq<Event>)
    requires Untouched(p)
    requires exists i :: 0 <= i < |p.nodes| && !w.Dead(p, i)
    requires exists i :: 0 <= i < |p.nodes| && w.Dead(p, i)
    requires forall e :: e in events ==> w.Allows(e)
    ensures Failures(w, p, events) <= DeadOf(w, p, |p.nodes|) * p.thresholds.unhealthy - 1
  {
    var d :| 0 <= d < |p.nodes| && w.Dead(p, d);
    Books(w, p, events, d);
  }

  /** And each dead node is a request's first choice at most unhealthyThreshold times. */
  lemma {:induction false} BoundedExposure(w: World, p: PoolView, events: seq<Event>, d: nat)
    requires Untouched(p)
    requires exists i :: 0 <= i < |p.nodes| && !w.Dead(p, i)
    requires d < |p.nodes| && w.Dead(p, d)
    requires forall e :: e in events ==> w.Allows(e)
    ensures FirstChoices(w, p, events, d) <= p.thresholds.unhealthy
  {
    Books(w, p, events, d);
  }
}
