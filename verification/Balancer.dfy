/** The upstream pools (internal/balancer/balancer.go): whose turn it is, what reports do
    to a node, and how a reload replaces the nodes of a network. */
module Balancer {
  import opened Sums
  import opened RoundRobin
  import opened NodeHealth

  // ----- a pool as a value ----------------------------------------------------------

  datatype NodeView = NodeView(name: string, url: string, wsurl: string, weight: int, health: Health)

  datatype PoolView = PoolView(nodes: seq<NodeView>, rr: int, thresholds: Thresholds) {
    ghost predicate Valid() {
      && rr >= 0
      && (forall i :: 0 <= i < |nodes| ==> nodes[i].weight >= 1)
    }
  }

  datatype Transport = Http | WS

  /** A node's index and how many places it has in one turn. */
  datatype Share = Share(node: nat, weight: int)

  predicate Up(n: NodeView) { n.health.healthy }
  predicate HasWS(n: NodeView) { n.wsurl != "" }
  predicate UpWithWS(n: NodeView) { HasWS(n) && Up(n) }

  function Select(nodes: seq<NodeView>, keep: NodeView -> bool): seq<Share> {
    if nodes == [] then [] else
    var before, last := nodes[..|nodes| - 1], nodes[|nodes| - 1];
    Select(before, keep) + (if keep(last) then [Share(|before|, last.weight)] else [])
  }

  function Equal(n: nat): seq<Share> {
    seq(n, i requires 0 <= i < n => Share(i, 1))
  }

  /** Who takes turns: the healthy nodes by weight; over HTTP, if none is healthy, all nodes
      equally; over WebSocket only nodes with a WebSocket address, healthy or not if need be. */
  function Turns(p: PoolView, kind: Transport): seq<Share> {
    match kind
    case Http =>
      var up := Select(p.nodes, Up);
      if up == [] then Equal(|p.nodes|) else up
    case WS =>
      var up := Select(p.nodes, UpWithWS);
      if up == [] then Select(p.nodes, HasWS) else up
  }

  ghost predicate Positive(shares: seq<Share>) {
    forall k :: 0 <= k < |shares| ==> shares[k].weight >= 1
  }

  function Weights(shares: seq<Share>): (w: seq<nat>)
    requires Positive(shares)
    ensures |w| == |shares| && forall k :: 0 <= k < |shares| ==> w[k] == shares[k].weight
  {
    seq(|shares|, k requires 0 <= k < |shares| => shares[k].weight)
  }

  lemma {:induction false} WholeIsPositive(w: seq<nat>)
    requires w != [] && forall k :: 0 <= k < |w| ==> w[k] >= 1
    ensures Whole(w) >= 1
  {
  }

  lemma {:induction false} SelectShape(nodes: seq<NodeView>, keep: NodeView -> bool)
    requires forall i :: 0 <= i < |nodes| ==> nodes[i].weight >= 1
    ensures var s := Select(nodes, keep);
            && Positive(s)
            && (forall k :: 0 <= k < |s| ==>
                s[k].node < |nodes| && keep(nodes[s[k].node]) && s[k].weight == nodes[s[k].node].weight)
            && (forall j, k :: 0 <= j < k < |s| ==> s[j].node < s[k].node)
            && (forall i :: 0 <= i < |nodes| && keep(nodes[i]) ==> exists k :: 0 <= k < |s| && s[k].node == i)
    decreases |nodes|
  {
    if nodes != [] {
      var before := nodes[..|nodes| - 1];
      SelectShape(before, keep);
      var t, s := Select(before, keep), Select(nodes, keep);
      assert forall k :: 0 <= k < |t| ==> s[k] == t[k];
      forall i | 0 <= i < |nodes| && keep(nodes[i])
        ensures exists k :: 0 <= k < |s| && s[k].node == i
      {
        if i == |before| {
          assert s[|t|].node == i;
        } else {
          assert keep(before[i]);
          var k :| 0 <= k < |t| && t[k].node == i;
          assert s[k].node == i;
        }
      }
    }
  }

  lemma {:induction false} TurnsShape(p: PoolView, kind: Transport)
    requires p.Valid()
    ensures var s := Turns(p, kind);
            && Positive(s)
            && (forall k :: 0 <= k < |s| ==> s[k].node < |p.nodes|)
            && (forall j, k :: 0 <= j < k < |s| ==> s[j].node < s[k].node)
    ensures kind == Http && p.nodes != [] ==> Turns(p, kind) != []
  {
    SelectShape(p.nodes, Up);
    SelectShape(p.nodes, UpWithWS);
    SelectShape(p.nodes, HasWS);
  }

  function NextTurn(p: PoolView, kind: Transport): (r: (PoolView, Option<nat>))
    requires p.Valid()
    ensures r.0.Valid()
    ensures r.1.Some? <==> Turns(p, kind) != []
    ensures r.1.Some? ==> r.1.value < |p.nodes|
  {
    var shares := Turns(p, kind);
    if shares == [] then (p, None) else
    TurnsShape(p, kind);
    WholeIsPositive(Weights(shares));
    var rr := Mod(p.rr + 1, Whole(Weights(shares)));
    (p.(rr := rr), Some(shares[Owner(Weights(shares), rr)].node))
  }

  lemma {:induction false} OneTurn(p: PoolView, kind: Transport, shares: seq<Share>)
    requires p.Valid() && Turns(p, kind) == shares != []
    ensures Positive(shares) && Whole(Weights(shares)) >= 1
    ensures var rr := Mod(p.rr + 1, Whole(Weights(shares)));
            NextTurn(p, kind) == (p.(rr := rr), Some(shares[Owner(Weights(shares), rr)].node))
  {
    TurnsShape(p, kind);
    WholeIsPositive(Weights(shares));
  }

  function WithReport(p: PoolView, i: nat, ok: bool): PoolView
    requires i < |p.nodes|
  {
    p.(nodes := p.nodes[i := p.nodes[i].(health := Reported(p.nodes[i].health, p.thresholds, ok))])
  }

  /** Over WebSocket only nodes with an address can be picked. */
  ghost predicate Eligible(p: PoolView, kind: Transport, i: nat)
    requires i < |p.nodes|
  {
    kind == WS ==> p.nodes[i].wsurl != ""
  }

  lemma {:induction false} NoneSelected(nodes: seq<NodeView>, keep: NodeView -> bool)
    ensures Select(nodes, keep) == [] <==> forall i :: 0 <= i < |nodes| ==> !keep(nodes[i])
    decreases |nodes|
  {
    if nodes != [] {
      NoneSelected(nodes[..|nodes| - 1], keep);
      assert forall i :: 0 <= i < |nodes| - 1 ==> nodes[..|nodes| - 1][i] == nodes[i];
    }
  }

  lemma {:induction false} SharesOfTheBest(p: PoolView, kind: Transport, k: nat)
    requires p.Valid() && k < |Turns(p, kind)|
    ensures var i := Turns(p, kind)[k].node;
            && i < |p.nodes| && Eligible(p, kind, i)
            && (p.nodes[i].health.healthy || forall j :: 0 <= j < |p.nodes| && Eligible(p, kind, j) ==>
                  !p.nodes[j].health.healthy)
  {
    NoneSelected(p.nodes, Up);
    NoneSelected(p.nodes, UpWithWS);
    hide Select;
    if kind == Http && Select(p.nodes, Up) != [] {
      SelectShape(p.nodes, Up);
    } else if kind == WS {
      SelectShape(p.nodes, if Select(p.nodes, UpWithWS) == [] then HasWS else UpWithWS);
    }
  }

  lemma {:induction false} SomeShare(p: PoolView, kind: Transport, i: nat)
    requires p.Valid() && i < |p.nodes| && Eligible(p, kind, i)
    ensures Turns(p, kind) != []
  {
    SelectShape(p.nodes, HasWS);
    if kind == WS {
      assert HasWS(p.nodes[i]);
    }
  }

  /** Over HTTP a healthy node is picked if there is one, else any node; over WebSocket a
      healthy node with an address if there is one, else any with an address; and none only
      if there is none to pick. */
  lemma {:induction false} PicksTheBest(p: PoolView, kind: Transport)
    requires p.Valid()
    ensures var pick := NextTurn(p, kind).1;
            && (pick == None <==> forall i :: 0 <= i < |p.nodes| ==> !Eligible(p, kind, i))
            && (pick.Some? ==>
                  && Eligible(p, kind, pick.value)
                  && (p.nodes[pick.value].health.healthy ||
                      forall j :: 0 <= j < |p.nodes| && Eligible(p, kind, j) ==> !p.nodes[j].health.healthy))
  {
    var shares := Turns(p, kind);
    hide Turns, Eligible;
    forall i | 0 <= i < |p.nodes| && Eligible(p, kind, i) ensures shares != [] {
      SomeShare(p, kind, i);
    }
    if shares != [] {
      OneTurn(p, kind, shares);
      SharesOfTheBest(p, kind, Owner(Weights(shares), NextTurn(p, kind).0.rr));
    }
  }

  // ----- fairness -------------------------------------------------------------------

  ghost function AfterPicks(p: PoolView, kinds: seq<Transport>): (q: PoolView)
    requires p.Valid()
    ensures q.Valid() && q == p.(rr := q.rr)
  {
    if kinds == [] then p else NextTurn(AfterPicks(p, kinds[..|kinds| - 1]), kinds[|kinds| - 1]).0
  }

  /** How often the picks give node `i`. */
  ghost function Picked(p: PoolView, kinds: seq<Transport>, i: nat): nat
    requires p.Valid()
  {
    if kinds == [] then 0 else
    var before := kinds[..|kinds| - 1];
    Picked(p, before, i) + (if NextTurn(AfterPicks(p, before), kinds[|kinds| - 1]).1 == Some(i) then 1 else 0)
  }

  /** All the picks take turns among the same shares. */
  ghost predicate TakeTurns(p: PoolView, kinds: seq<Transport>, shares: seq<Share>) {
    shares != [] && Positive(shares) && forall kind :: kind in kinds ==> Turns(p, kind) == shares
  }

  lemma {:induction false} LastTurn(p: PoolView, kinds: seq<Transport>, shares: seq<Share>)
    requires p.Valid() && TakeTurns(p, kinds, shares) && kinds != []
    ensures Positive(shares) && Whole(Weights(shares)) >= 1
    ensures var before := AfterPicks(p, kinds[..|kinds| - 1]);
            var rr := Mod(before.rr + 1, Whole(Weights(shares)));
            && AfterPicks(p, kinds).rr == rr
            && NextTurn(before, kinds[|kinds| - 1]).1 == Some(shares[Owner(Weights(shares), rr)].node)
  {
    hide NextTurn, Turns, Owner, Whole, Mod, PoolView.Valid;
    var before, kind := AfterPicks(p, kinds[..|kinds| - 1]), kinds[|kinds| - 1];
    assert AfterPicks(p, kinds) == NextTurn(before, kind).0;
    assert kind in kinds;
    hide AfterPicks;
    SameTurns(p, before, kind);
    OneTurn(before, kind, shares);
  }

  lemma {:induction false} SameTurns(p: PoolView, q: PoolView, kind: Transport)
    requires q.nodes == p.nodes
    ensures Turns(q, kind) == Turns(p, kind)
  {
    hide Select;
  }

  /** The nth pick falls on place (rr + n) mod W. */
  lemma {:induction false} PicksStepThroughPlaces(p: PoolView, kinds: seq<Transport>, shares: seq<Share>)
    requires p.Valid() && TakeTurns(p, kinds, shares) && kinds != []
    ensures Positive(shares) && Whole(Weights(shares)) >= 1
    ensures AfterPicks(p, kinds).rr == Mod(p.rr + |kinds|, Whole(Weights(shares)))
    decreases |kinds|
  {
    hide PoolView.Valid, Turns, Owner, NextTurn;
    LastTurn(p, kinds, shares);
    var before := kinds[..|kinds| - 1];
    if before != [] {
      PicksStepThroughPlaces(p, before, shares);
      NextMod(p.rr + |before|, Whole(Weights(shares)));
    }
  }

  lemma {:induction false} PickedAreHits(p: PoolView, kinds: seq<Transport>, shares: seq<Share>, k: nat)
    requires p.Valid() && TakeTurns(p, kinds, shares) && k < |shares|
    requires forall i, j :: 0 <= i < j < |shares| ==> shares[i].node < shares[j].node
    requires Whole(Weights(shares)) >= 1
    ensures var w := Weights(shares);
            Picked(p, kinds, shares[k].node) == Hits(p.rr, |kinds|, Whole(w), Start(w, k), Start(w, k + 1))
    decreases |kinds|
  {
    if kinds != [] {
      PickedAreHits(p, kinds[..|kinds| - 1], shares, k);
      LastTurn(p, kinds, shares);
      PicksStepThroughPlaces(p, kinds, shares);
      OwnerIff(Weights(shares), AfterPicks(p, kinds).rr, k);
    }
  }

  lemma {:induction false} PickedInTurns(p: PoolView, kinds: seq<Transport>, shares: seq<Share>, k: nat)
    requires p.Valid() && TakeTurns(p, kinds, shares) && k < |shares| && kinds != []
    ensures var w := Weights(shares);
            Whole(w) >= 1 &&
            Picked(p, kinds, shares[k].node) == Hits(p.rr, |kinds|, Whole(w), Start(w, k), Start(w, k + 1))
  {
    assert kinds[0] in kinds;
    TurnsShape(p, kinds[0]);
    WholeIsPositive(Weights(shares));
    PickedAreHits(p, kinds, shares, k);
  }

  /** While the shares stay the same, q turns of W picks and r picks more give a share of
      weight w between q * w and (q + 1) * w picks, exactly q * w if r is 0; over HTTP, over
      WebSocket, and over any mix of the two that takes turns among the same nodes. */
  lemma {:induction false} Fairness(p: PoolView, kinds: seq<Transport>, shares: seq<Share>, k: nat, q: nat, r: nat)
    requires p.Valid() && TakeTurns(p, kinds, shares) && k < |shares| && kinds != []
    requires r < Whole(Weights(shares)) && |kinds| == q * Whole(Weights(shares)) + r
    ensures q * Weights(shares)[k] <= Picked(p, kinds, shares[k].node)
    ensures Picked(p, kinds, shares[k].node) <= q * Weights(shares)[k] + (if r == 0 then 0 else Weights(shares)[k])
  {
    PickedInTurns(p, kinds, shares, k);
    ShareOfTurns(Weights(shares), k, p.rr, |kinds|, q, r);
  }

  /** A share of weight w is picked at least once in any W - w + 1 picks. */
  lemma {:induction false} EveryNodeIsPicked(p: PoolView, kinds: seq<Transport>, shares: seq<Share>, k: nat)
    requires p.Valid() && TakeTurns(p, kinds, shares) && k < |shares| && kinds != []
    requires |kinds| == Whole(Weights(shares)) - shares[k].weight + 1
    ensures Picked(p, kinds, shares[k].node) >= 1
  {
    PickedInTurns(p, kinds, shares, k);
    ShareIsServed(Weights(shares), k, p.rr);
  }

  // ----- fairness by weight ---------------------------------------------------------

  /** The weight of the first `n` nodes that `keep` selects. */
  ghost function KeptWeight(nodes: seq<NodeView>, keep: NodeView -> bool, n: nat): int
    requires n <= |nodes|
  {
    if n == 0 then 0 else KeptWeight(nodes, keep, n - 1) + (if keep(nodes[n - 1]) then nodes[n - 1].weight else 0)
  }

  lemma {:induction false} SelectedWeight(nodes: seq<NodeView>, keep: NodeView -> bool, n: nat)
    requires n <= |nodes| && forall i :: 0 <= i < |nodes| ==> nodes[i].weight >= 1
    ensures var s := Select(nodes[..n], keep); Positive(s) && Whole(Weights(s)) == KeptWeight(nodes, keep, n)
    decreases n
  {
    if n > 0 {
      SelectedWeight(nodes, keep, n - 1);
      SelectStep(nodes, n - 1, keep);
    }
  }

  lemma {:induction false} NonePicked(p: PoolView, kinds: seq<Transport>, i: nat)
    requires p.Valid() && |kinds| == 0
    ensures Picked(p, kinds, i) == 0
  {
  }

  lemma {:induction false} ShareOf(nodes: seq<NodeView>, keep: NodeView -> bool, i: nat) returns (k: nat)
    requires (forall i :: 0 <= i < |nodes| ==> nodes[i].weight >= 1) && i < |nodes| && keep(nodes[i])
    ensures var s := Select(nodes, keep);
            && k < |s| && s[k] == Share(i, nodes[i].weight) && Positive(s) && Weights(s)[k] == nodes[i].weight
            && Whole(Weights(s)) == KeptWeight(nodes, keep, |nodes|) >= 1
  {
    SelectShape(nodes, keep);
    SelectedWeight(nodes, keep, |nodes|);
    assert nodes[..|nodes|] == nodes;
    k :| 0 <= k < |Select(nodes, keep)| && Select(nodes, keep)[k].node == i;
    WholeIsPositive(Weights(Select(nodes, keep)));
  }

  lemma {:induction false} FairnessAmong(p: PoolView, kind: Transport, keep: NodeView -> bool, kinds: seq<Transport>,
                                         i: nat, q: nat)
    requires p.Valid() && Turns(p, kind) == Select(p.nodes, keep) && i < |p.nodes| && keep(p.nodes[i])
    requires |kinds| == q * KeptWeight(p.nodes, keep, |p.nodes|) && forall k :: k in kinds ==> k == kind
    ensures Picked(p, kinds, i) == q * p.nodes[i].weight
  {
    var shares := Select(p.nodes, keep);
    var k := ShareOf(p.nodes, keep, i);
    hide Select, Turns, KeptWeight, Picked, PoolView.Valid, Whole;
    if q == 0 {
      NonePicked(p, kinds, i);
    } else {
      Multiply(Whole(Weights(shares)), 1, q);
      Fairness(p, kinds, shares, k, q, 0);
    }
  }

  /** Healthy nodes are served by weight, also over WebSocket. */
  lemma {:induction false} HealthyShare(p: PoolView, kind: Transport, kinds: seq<Transport>, i: nat, q: nat)
    requires p.Valid() && i < |p.nodes| && Eligible(p, kind, i) && p.nodes[i].health.healthy
    requires |kinds| == q * KeptWeight(p.nodes, if kind == WS then UpWithWS else Up, |p.nodes|)
    requires forall k :: k in kinds ==> k == kind
    ensures Picked(p, kinds, i) == q * p.nodes[i].weight
  {
    SelectShape(p.nodes, if kind == WS then UpWithWS else Up);
    assert (if kind == WS then UpWithWS else Up)(p.nodes[i]);
    FairnessAmong(p, kind, if kind == WS then UpWithWS else Up, kinds, i, q);
  }

  ghost function SumOfWeights(cfgs: seq<NodeConfig>, n: nat): int
    requires n <= |cfgs|
  {
    if n == 0 then 0 else SumOfWeights(cfgs, n - 1) + ConfiguredWeight(cfgs[n - 1])
  }

  lemma {:induction false} ConfiguredSum(nodes: seq<NodeView>, cfgs: seq<NodeConfig>, n: nat)
    requires AsConfigured(nodes, cfgs) && n <= |nodes|
    ensures KeptWeight(nodes, Up, n) == SumOfWeights(cfgs, n)
    decreases n
  {
    if n > 0 {
      ConfiguredSum(nodes, cfgs, n - 1);
    }
  }

  /** A pool freshly started or reloaded from a configuration serves it: in `q` turns of as
      many HTTP picks as the configured weights add up to, node i is picked exactly q times
      its configured weight. */
  lemma {:induction false} ConfiguredFairness(p: PoolView, cfgs: seq<NodeConfig>, kinds: seq<Transport>, i: nat, q: nat)
    requires AsConfigured(p.nodes, cfgs) && p.Valid() && i < |cfgs|
    requires |kinds| == q * SumOfWeights(cfgs, |cfgs|) && forall kind :: kind in kinds ==> kind == Http
    ensures Picked(p, kinds, i) == q * ConfiguredWeight(cfgs[i])
  {
    ConfiguredSum(p.nodes, cfgs, |cfgs|);
    assert p.nodes[i].weight == ConfiguredWeight(cfgs[i]) && p.nodes[i].health.healthy;
    hide AsConfigured, SumOfWeights, KeptWeight, Picked, PoolView.Valid;
    HealthyShare(p, Http, kinds, i, q);
  }

  /** If no upstream is healthy, HTTP requests go to all of them equally. */
  lemma {:induction false} EqualShare(p: PoolView, kinds: seq<Transport>, i: nat, q: nat)
    requires p.Valid() && i < |p.nodes| && forall j :: 0 <= j < |p.nodes| ==> !p.nodes[j].health.healthy
    requires |kinds| == q * |p.nodes| && forall k :: k in kinds ==> k == Http
    ensures Picked(p, kinds, i) == q
  {
    NoneSelected(p.nodes, Up);
    var shares := Equal(|p.nodes|);
    OneEach(|p.nodes|);
    assert Weights(shares)[i] == 1 && shares[i].node == i;
    hide Select, Picked, PoolView.Valid, Whole, Owner;
    if q == 0 {
      NonePicked(p, kinds, i);
    } else {
      Multiply(|p.nodes|, 1, q);
      Fairness(p, kinds, shares, i, q, 0);
    }
  }

  /** If no upstream with a WebSocket address is healthy, sessions go to all of these by
      weight. */
  lemma {:induction false} FallbackShare(p: PoolView, kinds: seq<Transport>, i: nat, q: nat)
    requires p.Valid() && i < |p.nodes| && p.nodes[i].wsurl != ""
    requires forall j :: 0 <= j < |p.nodes| && p.nodes[j].wsurl != "" ==> !p.nodes[j].health.healthy
    requires |kinds| == q * KeptWeight(p.nodes, HasWS, |p.nodes|) && forall k :: k in kinds ==> k == WS
    ensures Picked(p, kinds, i) == q * p.nodes[i].weight
  {
    NoneSelected(p.nodes, UpWithWS);
    hide Select;
    FairnessAmong(p, WS, HasWS, kinds, i, q);
  }

  // ----- nodes and pools in the heap ------------------------------------------------

  datatype NodeConfig = NodeConfig(name: string, url: string, wsurl: string, weight: int)

  class Node {
    const name: string
    const url: string
    const wsurl: string
    const weight: int
    var healthy: bool
    var failCount: int32
    var okCount: int32

    constructor (name: string, url: string, wsurl: string, weight: int)
      ensures View() == NodeView(name, url, wsurl, weight, FRESH)
    {
      this.name, this.url, this.wsurl, this.weight := name, url, wsurl, weight;
      healthy, failCount, okCount := true, 0, 0;
    }

    function View(): NodeView
      reads this
    {
      NodeView(name, url, wsurl, weight, Health(healthy, failCount, okCount))
    }
  }

  function Views(nodes: seq<Node>): (v: seq<NodeView>)
    reads nodes
    ensures |v| == |nodes| && forall i :: 0 <= i < |nodes| ==> v[i] == nodes[i].View()
  {
    seq(|nodes|, i requires 0 <= i < |nodes| reads nodes => nodes[i].View())
  }

  function Digit(k: nat): char
    requires k < 10
  {
    ('0' as int + k) as char
  }

  function Decimal(n: nat): string {
    (if n < 10 then "" else Decimal(n / 10)) + [Digit(n % 10)]
  }

  /** The number that a string of digits stands for. */
  ghost function ValueOf(s: string): int {
    if s == "" then 0 else 10 * ValueOf(s[..|s| - 1]) + (s[|s| - 1] as int - '0' as int)
  }

  lemma {:induction false} DecimalReads(n: nat)
    ensures ValueOf(Decimal(n)) == n && forall c :: c in Decimal(n) ==> '0' <= c <= '9'
    decreases n
  {
    var digit := Digit(n % 10);
    if n < 10 {
      OneMoreDigit("", digit);
    } else {
      DecimalReads(n / 10);
      OneMoreDigit(Decimal(n / 10), digit);
    }
  }

  lemma {:induction false} OneMoreDigit(s: string, digit: char)
    ensures ValueOf(s + [digit]) == 10 * ValueOf(s) + (digit as int - '0' as int)
  {
    assert (s + [digit])[..|s|] == s;
  }

  function DeriveWSURL(url: string, explicit: string): string {
    if explicit != "" then explicit
    else if "https://" <= url then "wss://" + url[8..]
    else if "http://" <= url then "ws://" + url[7..]
    else if "wss://" <= url || "ws://" <= url then url
    else ""
  }

  /** What a configured node becomes. */
  function Built(cfg: NodeConfig, i: nat): NodeView {
    NodeView(if cfg.name == "" then "node-" + Decimal(i + 1) else cfg.name, cfg.url,
             DeriveWSURL(cfg.url, cfg.wsurl), if cfg.weight <= 0 then 1 else cfg.weight, FRESH)
  }

  function BuiltAll(cfgs: seq<NodeConfig>): seq<NodeView> {
    seq(|cfgs|, i requires 0 <= i < |cfgs| => Built(cfgs[i], i))
  }

  /** The nodes are those configured, all healthy, and a weight that is not positive counts
      as one. */
  ghost predicate AsConfigured(nodes: seq<NodeView>, cfgs: seq<NodeConfig>) {
    && |nodes| == |cfgs|
    && forall i :: 0 <= i < |cfgs| ==>
         && nodes[i].url == cfgs[i].url && nodes[i].health.healthy
         && nodes[i].weight == ConfiguredWeight(cfgs[i])
         && nodes[i].name == (if cfgs[i].name != "" then cfgs[i].name else "node-" + Decimal(i + 1))
         && (cfgs[i].wsurl != "" ==> nodes[i].wsurl == cfgs[i].wsurl)
         && (cfgs[i].wsurl == "" ==> Derived(cfgs[i].url, nodes[i].wsurl))
  }

  function ConfiguredWeight(cfg: NodeConfig): nat { if cfg.weight >= 1 then cfg.weight else 1 }

  /** A WebSocket address on the same host, as secure as the HTTP address, or none. */
  ghost predicate Derived(url: string, wsurl: string) {
    || (exists rest :: url == "https://" + rest && wsurl == "wss://" + rest)
    || (exists rest :: url == "http://" + rest && wsurl == "ws://" + rest)
    || (("ws://" <= url || "wss://" <= url) && wsurl == url)
    || (wsurl == "" && !("http://" <= url) && !("https://" <= url) && !("ws://" <= url) && !("wss://" <= url))
  }

  lemma {:induction false} WSURLIsDerived(url: string)
    ensures Derived(url, DeriveWSURL(url, ""))
  {
    if "https://" <= url {
      assert url == "https://" + url[8..];
    } else if "http://" <= url {
      assert url == "http://" + url[7..];
    }
  }

  lemma {:induction false} BuiltAsConfigured(cfgs: seq<NodeConfig>)
    ensures AsConfigured(BuiltAll(cfgs), cfgs)
  {
    hide Derived;
    forall i | 0 <= i < |cfgs| ensures cfgs[i].wsurl == "" ==> Derived(cfgs[i].url, BuiltAll(cfgs)[i].wsurl) {
      WSURLIsDerived(cfgs[i].url);
    }
  }

  method BuildNodes(cfgs: seq<NodeConfig>) returns (nodes: seq<Node>)
    ensures fresh(nodes) && Views(nodes) == BuiltAll(cfgs)
    ensures AsConfigured(Views(nodes), cfgs)
    ensures forall i, j :: 0 <= i < j < |nodes| ==> nodes[i] != nodes[j]
  {
    nodes := [];
    for i := 0 to |cfgs|
      invariant fresh(nodes) && |nodes| == i
      invariant forall k :: 0 <= k < i ==> nodes[k].View() == Built(cfgs[k], k)
      invariant forall j, k :: 0 <= j < k < i ==> nodes[j] != nodes[k]
    {
      var n := cfgs[i];
      var name := n.name;
      if name == "" {
        name := "node-" + Decimal(i + 1);
      }
      var w := n.weight;
      if w <= 0 {
        w := 1;
      }
      var node := new Node(name, n.url, DeriveWSURL(n.url, n.wsurl), w);
      nodes := nodes + [node];
    }
    BuiltAsConfigured(cfgs);
  }

  method Advance(rr: nat, modulus: nat) returns (next: nat)
    requires modulus > 0
    ensures next == Mod(rr + 1, modulus)
  {
    ModIsRemainder(rr + 1, modulus);
    next := (rr + 1) % modulus;
  }

  /** The scan over the candidates; no place is left over after the loop. */
  method Scan(candidates: seq<Node>, place: int, ghost w: seq<int>) returns (k: nat)
    requires |candidates| == |w| && forall i :: 0 <= i < |w| ==> w[i] >= 1 && candidates[i].weight == w[i]
    requires 0 <= place < Whole(w)
    ensures k < |w| && k == Owner(w, place)
  {
    var cursor := 0;
    for i := 0 to |candidates|
      invariant cursor == Start(w, i) <= place
    {
      cursor := cursor + candidates[i].weight;
      if place < cursor {
        OwnerIff(w, place, i);
        return i;
      }
    }
    assert false;
  }

  class Pool {
    const chainID: string
    const thresholds: Thresholds
    var nodes: seq<Node>
    var rr: int

    constructor (chainID: string, cfgs: seq<NodeConfig>, thresholds: Thresholds)
      ensures Valid() && fresh(nodes) && this.chainID == chainID
      ensures View() == PoolView(BuiltAll(cfgs), 0, thresholds) && AsConfigured(View().nodes, cfgs)
    {
      this.chainID, this.thresholds := chainID, thresholds;
      rr := 0;
      var built := BuildNodes(cfgs);
      nodes := built;
      new;
      assert View().nodes == BuiltAll(cfgs);
    }

    ghost predicate Valid()
      reads this, nodes
    {
      && View().Valid()
      && (forall i, j :: 0 <= i < j < |nodes| ==> nodes[i] != nodes[j])
    }

    function View(): PoolView
      reads this, nodes
    {
      PoolView(Views(nodes), rr, thresholds)
    }

    method ReplaceNodes(cfgs: seq<NodeConfig>)
      modifies this
      ensures Valid() && fresh(nodes) && |nodes| == |cfgs|
      ensures View() == PoolView(BuiltAll(cfgs), 0, thresholds) && AsConfigured(View().nodes, cfgs)
    {
      var next := BuildNodes(cfgs);
      nodes := next;
      rr := 0;
      assert View().nodes == BuiltAll(cfgs);
    }

    /** The candidates are the nodes that the shares speak of. */
    ghost predicate Lists(candidates: seq<Node>, shares: seq<Share>)
      reads this
    {
      && |candidates| == |shares|
      && forall k :: 0 <= k < |shares| ==>
           && shares[k].node < |nodes|
           && candidates[k] == nodes[shares[k].node]
           && candidates[k].weight == shares[k].weight
    }

    method SetCounter(next: nat)
      requires Valid()
      modifies this`rr
      ensures Valid() && rr == next && View() == old(View()).(rr := next)
    {
      rr := next;
    }

    /** Steps the counter and takes the candidate whose place it is. */
    method Take(candidates: seq<Node>, total: int, ghost shares: seq<Share>) returns (node: Node)
      requires Valid() && shares != [] && Lists(candidates, shares)
      requires Positive(shares) && total == Whole(Weights(shares)) && total > 0
      modifies this`rr
      ensures Valid() && View() == old(View()).(rr := Mod(old(rr) + 1, Whole(Weights(shares))))
      ensures node == nodes[shares[Owner(Weights(shares), rr)].node]
    {
      assert rr >= 0;
      hide Owner, Whole, Mod, PoolView.Valid;
      var next := Advance(rr, total);
      SetCounter(next);
      var k := Scan(candidates, rr, Weights(shares));
      node := candidates[k];
    }

    /** Collects the nodes that `keep` selects, with their total weight. */
    method Collect(keep: NodeView -> bool) returns (candidates: seq<Node>, total: int)
      requires Valid()
      ensures var s := Select(View().nodes, keep); Lists(candidates, s) && Positive(s) && total == Whole(Weights(s))
    {
      candidates, total := [], 0;
      ghost var views := View().nodes;
      for i := 0 to |nodes|
        invariant Lists(candidates, Select(views[..i], keep))
        invariant Positive(Select(views[..i], keep)) && total == Whole(Weights(Select(views[..i], keep)))
      {
        SelectStep(views, i, keep);
        if keep(nodes[i].View()) {
          candidates := candidates + [nodes[i]];
          total := total + nodes[i].weight;
        }
      }
      assert views[..|nodes|] == views;
    }

    method Next() returns (r: Option<Node>)
      requires Valid()
      modifies this`rr
      ensures Valid() && View() == NextTurn(old(View()), Http).0
      ensures var i := NextTurn(old(View()), Http).1;
              if i.None? then r == None else r == Some(nodes[i.value])
    {
      ghost var p := View();
      var healthy, totalWeight := Collect(Up);
      if |healthy| == 0 {
        if |nodes| == 0 {
          return None;
        }
        OneEach(|nodes|);
        OneTurn(p, Http, Equal(|nodes|));
        var next := Advance(rr, |nodes|);
        SetCounter(next);
        return Some(nodes[rr]);
      }
      var n := TakeTurn(healthy, totalWeight, Http);
      return Some(n);
    }

    method NextWS() returns (r: Option<Node>)
      requires Valid()
      modifies this`rr
      ensures Valid() && View() == NextTurn(old(View()), WS).0
      ensures var i := NextTurn(old(View()), WS).1;
              if i.None? then r == None else r == Some(nodes[i.value])
    {
      var candidates, totalWeight := CandidatesWS();
      if |candidates| == 0 || totalWeight <= 0 {
        WholeIsPositiveUnlessEmpty(Turns(View(), WS));
        return None;
      }
      var n := TakeTurn(candidates, totalWeight, WS);
      return Some(n);
    }

    method CandidatesWS() returns (candidates: seq<Node>, total: int)
      requires Valid()
      ensures var s := Turns(View(), WS); Lists(candidates, s) && Positive(s) && total == Whole(Weights(s))
    {
      candidates, total := Collect(UpWithWS);
      if |candidates| == 0 {
        candidates, total := Collect(HasWS);
      }
    }

    method TakeTurn(candidates: seq<Node>, total: int, ghost kind: Transport) returns (n: Node)
      requires Valid() && |candidates| > 0
      requires var s := Turns(View(), kind); Lists(candidates, s) && Positive(s) && total == Whole(Weights(s))
      modifies this`rr
      ensures Valid() && View() == NextTurn(old(View()), kind).0
      ensures NextTurn(old(View()), kind).1.Some? && n == nodes[NextTurn(old(View()), kind).1.value]
    {
      ghost var p, s := View(), Turns(View(), kind);
      OneTurn(p, kind, s);
      n := Take(candidates, total, s);
    }

    method ReportSuccess(node: Node)
      requires Valid()
      modifies node
      ensures Valid() && node.View() == old(node.View()).(health := Succeeded(old(node.View()).health, thresholds))
      ensures forall i :: 0 <= i < |nodes| && nodes[i] == node ==> View() == WithReport(old(View()), i, true)
      ensures node !in nodes ==> View() == old(View())
    {
      node.failCount := 0;
      node.okCount := Inc(node.okCount);
      var ok := node.okCount;
      if !node.healthy && ok >= thresholds.healthy {
        node.healthy := true;
        node.okCount := 0;
      }
    }

    method ReportFailure(node: Node)
      requires Valid()
      modifies node
      ensures Valid() && node.View() == old(node.View()).(health := Failed(old(node.View()).health, thresholds))
      ensures forall i :: 0 <= i < |nodes| && nodes[i] == node ==> View() == WithReport(old(View()), i, false)
      ensures node !in nodes ==> View() == old(View())
    {
      node.okCount := 0;
      node.failCount := Inc(node.failCount);
      var fails := node.failCount;
      if node.healthy && fails >= thresholds.unhealthy {
        node.healthy := false;
      }
    }

    /** One round of health checks; `up[i]` says how the probe of node i ends. */
    method CheckAll(up: seq<bool>)
      requires Valid() && |up| == |nodes|
      modifies nodes
      ensures Valid() && View() == Checked(old(View()), up, |up|)
    {
      var copy := nodes;
      for i := 0 to |copy|
        invariant Valid() && View() == Checked(old(View()), up, i)
      {
        hide WithReport, PoolView.Valid, Succeeded, Failed;
        if !up[i] {
          ReportFailure(copy[i]);
          continue;
        }
        ReportSuccess(copy[i]);
      }
    }
  }

  /** The node after one probe. */
  function ProbedAs(n: NodeView, t: Thresholds, answers: bool): NodeView {
    n.(health := if answers then Succeeded(n.health, t) else Failed(n.health, t))
  }

  lemma {:induction false} ProbedInTurn(p: PoolView, up: seq<bool>, n: nat)
    requires n <= |up| == |p.nodes|
    ensures Checked(p, up, n).thresholds == p.thresholds
    ensures forall i :: 0 <= i < |up| ==>
              Checked(p, up, n).nodes[i] == if i < n then ProbedAs(p.nodes[i], p.thresholds, up[i]) else p.nodes[i]
    decreases n
  {
    if n > 0 {
      ProbedInTurn(p, up, n - 1);
    }
  }

  ghost function Checked(p: PoolView, up: seq<bool>, n: nat): (q: PoolView)
    requires n <= |up| == |p.nodes|
    ensures |q.nodes| == |p.nodes|
  {
    if n == 0 then p else WithReport(Checked(p, up, n - 1), n - 1, up[n - 1])
  }

  lemma {:induction false} StartAppend(w: seq<nat>, x: nat, k: nat)
    requires k <= |w|
    ensures Start(w + [x], k) == Start(w, k)
    decreases k
  {
    if k > 0 {
      StartAppend(w, x, k - 1);
    }
  }

  lemma {:induction false} WholeAppend(w: seq<nat>, x: nat)
    ensures Whole(w + [x]) == Whole(w) + x
  {
    StartAppend(w, x, |w|);
  }

  lemma {:induction false} SelectStep(nodes: seq<NodeView>, i: nat, keep: NodeView -> bool)
    requires i < |nodes| && nodes[i].weight >= 1 && Positive(Select(nodes[..i], keep))
    ensures var s, t := Select(nodes[..i], keep), Select(nodes[..i + 1], keep);
            && t == s + (if keep(nodes[i]) then [Share(i, nodes[i].weight)] else [])
            && Positive(t)
            && Whole(Weights(t)) == Whole(Weights(s)) + (if keep(nodes[i]) then nodes[i].weight else 0)
  {
    assert nodes[..i + 1][..i] == nodes[..i];
    var s, t := Select(nodes[..i], keep), Select(nodes[..i + 1], keep);
    if keep(nodes[i]) {
      assert Weights(t) == Weights(s) + [nodes[i].weight];
      WholeAppend(Weights(s), nodes[i].weight);
    } else {
      assert t == s;
    }
  }

  lemma {:induction false} WholeIsPositiveUnlessEmpty(shares: seq<Share>)
    requires Positive(shares)
    ensures shares == [] || Whole(Weights(shares)) >= 1
  {
    if shares != [] {
      WholeIsPositive(Weights(shares));
    }
  }

  lemma {:induction false} EqualStarts(n: nat, k: nat)
    requires k <= n
    ensures Start(Weights(Equal(n)), k) == k
    decreases k
  {
    if k > 0 {
      EqualStarts(n, k - 1);
    }
  }

  /** With one place each, place r belongs to node r. */
  lemma {:induction false} OneEach(n: nat)
    ensures Whole(Weights(Equal(n))) == n
    ensures forall r :: 0 <= r < n ==> Equal(n)[Owner(Weights(Equal(n)), r)].node == r
  {
    EqualStarts(n, n);
    forall r | 0 <= r < n
      ensures Equal(n)[Owner(Weights(Equal(n)), r)].node == r
    {
      EqualStarts(n, r);
      OwnerIff(Weights(Equal(n)), r, r);
    }
  }
}
