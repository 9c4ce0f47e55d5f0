/** The pools of all networks and their reload (internal/balancer/balancer.go:55-152).
    Networks are fixed at startup; a reload only replaces the nodes inside them. */
module Registry {
  import opened Sums
  import opened Balancer
  import opened NodeHealth

  type Config = map<string, seq<NodeConfig>>
  type Networks = map<string, PoolView>

  function Started(nodes: seq<NodeConfig>, t: Thresholds): PoolView {
    PoolView(BuiltAll(nodes), 0, t)
  }

  /** The networks after those in `done` have been given the nodes of `chains`. */
  function Reloaded(r: Networks, chains: Config, done: set<string>, t: Thresholds): Networks {
    map id | id in r :: if id in done && id in chains then Started(chains[id], t) else r[id]
  }

  class Registry {
    const thresholds: Thresholds
    var pools: map<string, Pool>

    ghost predicate Valid()
      reads *
    {
      forall id :: id in pools ==>
        && pools[id].Valid()
        && pools[id].nodes != []
        && pools[id].chainID == id
        && pools[id].thresholds == thresholds
    }

    ghost function View(): Networks
      reads *
    {
      map id | id in pools :: pools[id].View()
    }

    /** No node belongs to two networks. */
    ghost predicate Apart()
      reads *
    {
      forall id, jd, n :: id in pools && jd in pools && id != jd && n in pools[id].nodes ==> n !in pools[jd].nodes
    }

    constructor (cfg: Config, thresholds: Thresholds)
      requires forall id :: id in cfg ==> cfg[id] != []
      ensures Valid() && Apart() && this.thresholds == thresholds
      ensures View() == StartedAll(cfg, cfg.Keys, thresholds)
    {
      this.thresholds := thresholds;
      pools := map[];
      new;
      var todo := cfg.Keys;
      assert View() == StartedAll(cfg, cfg.Keys - todo, thresholds);
      while todo != {}
        invariant todo <= cfg.Keys
        invariant Valid() && Apart() && View() == StartedAll(cfg, cfg.Keys - todo, thresholds)
      {
        var id :| id in todo;
        StartedNext(cfg, cfg.Keys - todo, id, thresholds);
        assert cfg.Keys - todo + {id} == cfg.Keys - (todo - {id});
        todo := todo - {id};
        hide StartedAll, Started;
        AddPool(id, cfg[id]);
      }
      assert cfg.Keys - todo == cfg.Keys;
    }

    method AddPool(id: string, nodes: seq<NodeConfig>)
      requires Valid() && Apart() && nodes != []
      modifies this
      ensures Valid() && Apart() && View() == old(View())[id := Started(nodes, thresholds)]
    {
      assert forall jd, n :: jd in pools && n in pools[jd].nodes ==> allocated(n);
      var pool := new Pool(id, nodes, thresholds);
      Put(id, pool);
    }

    method Put(id: string, pool: Pool)
      requires Valid() && pool.Valid() && pool.nodes != [] && pool.chainID == id && pool.thresholds == thresholds
      requires Apart() && forall jd, n :: jd in pools && n in pools[jd].nodes ==> n !in pool.nodes
      modifies this
      ensures Valid() && Apart() && View() == old(View())[id := pool.View()]
    {
      hide Pool.Valid, Pool.View;
      pools := pools[id := pool];
    }

    method Lookup(id: string) returns (p: Option<Pool>)
      ensures p == if id in pools then Some(pools[id]) else None
    {
      return if id in pools then Some(pools[id]) else None;
    }

    method ReloadPool(id: string, nodes: seq<NodeConfig>)
      requires Valid() && Apart() && id in pools && nodes != []
      modifies pools[id]
      ensures Valid() && Apart() && View() == old(View())[id := Started(nodes, thresholds)]
      ensures fresh(pools[id].nodes)
      ensures forall jd :: jd in pools && jd != id ==> pools[jd].nodes == old(pools[jd].nodes)
    {
      hide Pool.Valid, Pool.View;
      assert forall jd :: jd in pools && jd != id ==> pools[jd] != pools[id];
      assert forall jd, n :: jd in pools && n in pools[jd].nodes ==> allocated(n);
      pools[id].ReplaceNodes(nodes);
    }

    method ReloadNext(id: string, chains: Config, ghost before: Networks, ghost done: set<string>)
      requires Valid() && Apart() && id in pools && id in chains && chains[id] != []
      requires View() == Reloaded(before, chains, done, thresholds)
      modifies pools[id]
      ensures Valid() && Apart() && View() == Reloaded(before, chains, done + {id}, thresholds)
      ensures fresh(pools[id].nodes)
      ensures forall jd :: jd in pools && jd != id ==> pools[jd].nodes == old(pools[jd].nodes)
    {
      assert id in View();
      ReloadedStep(before, chains, done, id, thresholds);
      hide Reloaded, Started;
      ReloadPool(id, chains[id]);
    }

    /** Reloads network after network, in whatever order the map is walked, and gives up at
        the first one whose new configuration has no nodes. `done` is what was replaced: it
        has new node objects, and the others keep theirs. */
    method ReloadNodes(chains: Config) returns (err: Option<string>, ghost done: set<string>)
      requires Valid() && Apart()
      modifies pools.Values
      ensures Valid() && Apart() && View() == Reloaded(old(View()), chains, done, thresholds)
      ensures done <= pools.Keys * chains.Keys && forall id :: id in done ==> chains[id] != []
      ensures forall id :: id in done ==> fresh(pools[id].nodes)
      ensures forall id :: id in pools && id !in done ==> pools[id].nodes == old(pools[id].nodes)
      ensures err.None? ==> done == pools.Keys * chains.Keys
      ensures err.Some? ==> err.value in pools && err.value in chains && chains[err.value] == []
    {
      err, done := None, {};
      ghost var before := View();
      NothingReloaded(before, chains, thresholds);
      hide Reloaded, Registry.Valid, Registry.View, Registry.Apart;
      var todo := pools.Keys;
      while todo != {}
        invariant todo <= pools.Keys && done <= pools.Keys && done !! todo
        invariant forall id :: id in pools && id !in todo ==> (id in done <==> id in chains)
        invariant Valid() && Apart() && View() == Reloaded(before, chains, done, thresholds)
        invariant forall id :: id in done ==> id in chains && chains[id] != []
        invariant forall id :: id in done ==> fresh(pools[id].nodes)
        invariant forall id :: id in pools && id !in done ==> pools[id].nodes == old(pools[id].nodes)
      {
        var id :| id in todo;
        todo := todo - {id};
        if id in chains {
          if |chains[id]| == 0 {
            return Some(id), done;
          }
          ReloadNext(id, chains, before, done);
          done := done + {id};
        }
      }
    }

    /** A report on a node picked before a reload: it changes that node if its network was
        left alone, and no current node of any network if it was reloaded. */
    method LateReport(id: string, i: nat, chains: Config, ok: bool) returns (ghost done: set<string>)
      requires Valid() && Apart() && id in pools && i < |pools[id].nodes|
      modifies pools.Values, pools[id].nodes
      ensures Valid() && done <= chains.Keys && forall jd :: jd in done ==> chains[jd] != []
      ensures View() == Stepped(Reloaded(old(View()), chains, done, thresholds),
                                Event.Report(id, if id in done then None else Some(i), ok))
    {
      var pool, node := pools[id], pools[id].nodes[i];
      ghost var before := View();
      var err;
      err, done := ReloadNodes(chains);
      ghost var reloaded := View();
      hide Reloaded;
      assert id in done ==> forall jd :: jd in pools && jd in done ==> node !in pools[jd].nodes;
      ReportOn(id, pool, node, if id in done then None else Some(i), ok);
    }

    method ReportOn(id: string, pool: Pool, node: Node, ghost i: Option<nat>, ok: bool)
      requires Valid() && Apart() && id in pools && pool == pools[id]
      requires i.Some? ==> i.value < |pool.nodes| && pool.nodes[i.value] == node
      requires i.None? ==> forall jd :: jd in pools ==> node !in pools[jd].nodes
      modifies node
      ensures Valid() && View() == Stepped(old(View()), Event.Report(id, i, ok))
    {
      ghost var before := View();
      ReportAmong(id, pool, node, i, ok);
      hide Registry.Apart, Pool.Valid, Pool.View, WithReport, Stepped;
      OneStepped(before, View(), Event.Report(id, i, ok));
    }

    /** The report concerns no pool but its own. */
    method ReportAmong(id: string, pool: Pool, node: Node, ghost i: Option<nat>, ok: bool)
      requires Valid() && Apart() && id in pools && pool == pools[id]
      requires i.Some? ==> i.value < |pool.nodes| && pool.nodes[i.value] == node
      requires i.None? ==> forall jd :: jd in pools ==> node !in pools[jd].nodes
      modifies node
      ensures Valid()
      ensures pool.View() == if i.Some? then WithReport(old(pool.View()), i.value, ok) else old(pool.View())
      ensures forall jd :: jd in pools && jd != id ==> pools[jd].View() == old(pools[jd].View())
    {
      assert forall jd :: jd in pools && jd != id ==> node !in pools[jd].nodes;
      hide Registry.Apart, Pool.Valid, Pool.View, WithReport;
      PoolReport(pool, node, i, ok);
    }

    static method PoolReport(pool: Pool, node: Node, ghost i: Option<nat>, ok: bool)
      requires pool.Valid()
      requires if i.Some? then i.value < |pool.nodes| && pool.nodes[i.value] == node else node !in pool.nodes
      modifies node
      ensures pool.Valid()
      ensures pool.View() == if i.Some? then WithReport(old(pool.View()), i.value, ok) else old(pool.View())
    {
      hide WithReport, Balancer.PoolView.Valid;
      if ok {
        pool.ReportSuccess(node);
      } else {
        pool.ReportFailure(node);
      }
    }
  }

  /** What a report changes. */
  ghost function Stepped(r: Networks, e: Event): Networks
    requires e.Report? && (e.node.Some? ==> e.id in r && e.node.value < |r[e.id].nodes|)
  {
    if e.node.Some? then r[e.id := WithReport(r[e.id], e.node.value, e.ok)] else r
  }

  lemma {:induction false} OneStepped(r: Networks, q: Networks, e: Event)
    requires e.Report? && (e.node.Some? ==> e.id in r && e.node.value < |r[e.id].nodes|) && q.Keys == r.Keys
    requires forall id :: id in r && id != e.id ==> q[id] == r[id]
    requires e.id in r ==> q[e.id] == if e.node.Some? then WithReport(r[e.id], e.node.value, e.ok) else r[e.id]
    ensures q == Stepped(r, e)
  {
    hide WithReport;
  }

  function StartedAll(cfg: Config, ids: set<string>, t: Thresholds): Networks
    requires ids <= cfg.Keys
  {
    map id | id in ids :: Started(cfg[id], t)
  }

  lemma {:induction false} StartedNext(cfg: Config, ids: set<string>, id: string, t: Thresholds)
    requires ids <= cfg.Keys && id in cfg
    ensures StartedAll(cfg, ids + {id}, t) == StartedAll(cfg, ids, t)[id := Started(cfg[id], t)]
  {
  }

  /** Every network starts with the nodes of its configuration. */
  lemma {:induction false} AllConfigured(cfg: Config, t: Thresholds)
    ensures forall id :: id in cfg ==> AsConfigured(StartedAll(cfg, cfg.Keys, t)[id].nodes, cfg[id])
  {
    hide AsConfigured, BuiltAll;
    forall id | id in cfg ensures AsConfigured(StartedAll(cfg, cfg.Keys, t)[id].nodes, cfg[id]) {
      BuiltAsConfigured(cfg[id]);
    }
  }

  /** A network that is reloaded has the nodes of the new configuration, and starts its turns
      anew; any other is as it was. */
  lemma {:induction false} ReloadedConfigured(r: Networks, chains: Config, done: set<string>, t: Thresholds)
    requires done <= r.Keys * chains.Keys
    ensures Reloaded(r, chains, done, t).Keys == r.Keys
    ensures forall id :: id in done ==>
              var p := Reloaded(r, chains, done, t)[id];
              AsConfigured(p.nodes, chains[id]) && p.rr == 0 && p.thresholds == t
    ensures forall id :: id in r && id !in done ==> Reloaded(r, chains, done, t)[id] == r[id]
  {
    hide AsConfigured, BuiltAll;
    forall id | id in done ensures AsConfigured(Reloaded(r, chains, done, t)[id].nodes, chains[id]) {
      BuiltAsConfigured(chains[id]);
    }
  }

  lemma {:induction false} NothingReloaded(r: Networks, chains: Config, t: Thresholds)
    ensures Reloaded(r, chains, {}, t) == r
  {
  }

  lemma {:induction false} ReloadedStep(r: Networks, chains: Config, done: set<string>, id: string, t: Thresholds)
    requires id in r && id in chains
    ensures Reloaded(r, chains, done + {id}, t) == Reloaded(r, chains, done, t)[id := Started(chains[id], t)]
  {
  }

  // ----- every run ------------------------------------------------------------------

  datatype Event =
    | Pick(id: string, kind: Transport)
    | Report(id: string, node: Option<nat>, ok: bool)     // None: a node replaced since
    | Reload(chains: Config, done: set<string>)

  ghost predicate Possible(r: Networks, e: Event) {
    match e
    case Pick(id, kind) => true
    case Report(id, node, ok) => node.Some? ==> id in r && node.value < |r[id].nodes|
    case Reload(chains, done) => done <= chains.Keys && forall id :: id in done ==> chains[id] != []
  }

  ghost predicate Safe(r: Networks) {
    forall id :: id in r ==> r[id].Valid() && r[id].nodes != []
  }

  ghost function Step(r: Networks, e: Event, t: Thresholds): Networks
    requires Safe(r) && Possible(r, e)
  {
    match e
    case Pick(id, kind) => if id in r then r[id := NextTurn(r[id], kind).0] else r
    case Report(_, _, _) => Stepped(r, e)
    case Reload(chains, done) => Reloaded(r, chains, done, t)
  }

  lemma {:induction false} StepIsSafe(r: Networks, e: Event, t: Thresholds)
    requires Safe(r) && Possible(r, e)
    ensures Safe(Step(r, e, t)) && Step(r, e, t).Keys == r.Keys
  {
  }

  ghost predicate Run(t: Thresholds, states: seq<Networks>, events: seq<Event>) {
    && |states| == |events| + 1
    && Safe(states[0])
    && forall n :: 0 <= n < |events| ==>
         Safe(states[n]) ==> Possible(states[n], events[n]) && states[n + 1] == Step(states[n], events[n], t)
  }

  /** Over any run the networks stay the same, no pool is ever without nodes or with a
      weight below one, and every HTTP pick gives a node of the pool. */
  lemma {:induction false} RunsStaySafe(t: Thresholds, states: seq<Networks>, events: seq<Event>, n: nat)
    requires Run(t, states, events) && n <= |events|
    ensures Safe(states[n]) && states[n].Keys == states[0].Keys
    ensures forall id :: id in states[n] ==>
              var p := states[n][id];
              NextTurn(p, Http).1.Some? && NextTurn(p, Http).1.value < |p.nodes|
    decreases n
  {
    hide NextTurn, Balancer.PoolView.Valid, Step;
    if n > 0 {
      RunsStaySafe(t, states, events, n - 1);
      assert Possible(states[n - 1], events[n - 1]) && states[n - 1 + 1] == Step(states[n - 1], events[n - 1], t);
      StepIsSafe(states[n - 1], events[n - 1], t);
    }
    forall id | id in states[n]
      ensures NextTurn(states[n][id], Http).1.Some?
    {
      TurnsShape(states[n][id], Http);
    }
  }
}
