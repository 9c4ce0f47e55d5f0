/** The HTTP handler (internal/proxy/handler.go:48-184): which upstream answers, and what is
    written down about it. Forwarding is an oracle from URLs to replies. */
module Gateway {
  import opened Sums
  import Billing
  import opened Metering
  import opened Failover
  import Balancer
  import Collector
  import MeteringLaws
  import RateLimiter
  import Registry

  /** A customer's token, as far as accounting needs it. */
  datatype Token = Token(key: string, name: string, plan: string, billingFree: bool, enabled: bool, price: int) {
    function Meta(): Metering.Meta { Metering.Meta(key, name, plan, billingFree, enabled) }
    function Terms(): MeteringLaws.Terms { MeteringLaws.Terms(billingFree, price) }
  }

  /** Events handed to the billing publisher. */
  class Outbox {
    var events: seq<Billing.Event>

    constructor ()
      ensures events == []
    {
      events := [];
    }

    method Put(e: Billing.Event)
      modifies this
      ensures events == old(events) + [e]
    {
      events := events + [e];
    }
  }

  /** Everything a call is written down in. */
  datatype Standing = Standing(stats: Stats, kept: RateLimiter.Memory, events: seq<Billing.Event>)

  /** What a handler writes to; it may go without statistics. */
  ghost function LedgersOf(limiter: RateLimiter.Limiter, outbox: Outbox, stats: Collector.Collector?): set<object> {
    {limiter, outbox} + (if stats == null then {} else {stats})
  }

  ghost function PositionOf(limiter: RateLimiter.Limiter, outbox: Outbox, stats: Collector.Collector?): Standing
    reads LedgersOf(limiter, outbox, stats)
  {
    Standing(if stats == null then Stats(ZERO, map[]) else stats.View(), limiter.Kept(), outbox.events)
  }

  /** The call is written down as the recorder says, in all three places, and nothing else
      is. Without a collector there are no statistics. */
  ghost predicate Accounted(before: Standing, counted: bool, r: Recorder, after: Standing) {
    && (if counted then Collector.Credited(before.stats, r, after.stats) else after.stats == before.stats)
    && (BillOf(r).None? ==> after.kept == before.kept && after.events == before.events)
    && (BillOf(r).Some? ==>
          var b := BillOf(r).value;
          && after.kept == RateLimiter.AfterCount(before.kept, b.event.tokenKey, b.day, b.event.successN)
          && after.events == before.events + [b.event])
  }

  /** The outside of one call: its request, the oracle, the days read from the clock for the
      counter and for the event, and the event's fresh id. */
  datatype Call = Call(isPost: bool, token: Option<Token>, chainID: string, methods: seq<string>, bodyRead: bool,
                       forward: string -> Reply, day: string, eventDay: string, eventID: string)

  /** A status, and the JSON-RPC error code if the gateway answers itself. */
  datatype Response = Response(status: int, code: Option<int>)

  function BillFor(t: Token, chainID: string, methods: seq<string>, n: int, transport: string, kind: string,
                   day: string, eventDay: string, id: string): Option<Bill>
  {
    if n <= 0 then None else
    Some(Bill(day, Billing.Event(id, t.key, chainID, methods, n, !t.billingFree,
                                 Billing.Amount(!t.billingFree, t.price, n),
                         transport, kind, eventDay)))
  }

  /** What the outcome of a call is written down as. */
  function RecorderOf(c: Call, t: Token, outcome: Outcome): Recorder
    requires outcome.Answered? ==> outcome.reply.Answer?
  {
    if !outcome.Answered? || outcome.reply.status >= 500 then Fail(t.Meta(), c.chainID) else
    var (n, errors) := Counted(outcome.reply);
    Proxy(t.Meta(), c.chainID, n, errors, !t.billingFree,
          BillFor(t, c.chainID, c.methods, n, "http", "rpc", c.day, c.eventDay, c.eventID))
  }

  /** Results are counted only in responses that say success. */
  function Counted(reply: Reply): (nat, nat)
    requires reply.Answer?
  {
    if 200 <= reply.status < 300 then (reply.successes, reply.errors) else (0, 0)
  }

  function ResponseTo(outcome: Outcome): Response
    requires outcome.Answered? ==> outcome.reply.Answer?
  {
    match outcome
    case NoUpstream => Response(502, Some(-32003))
    case Unavailable => Response(502, Some(-32004))
    case Answered(_, reply) => Response(reply.status, None)
  }

  /** Bills carry the units that statistics count, at the token's terms. */
  lemma {:induction false} RecorderIsHonest(c: Call, t: Token, outcome: Outcome, terms: map<string, MeteringLaws.Terms>)
    requires outcome.Answered? ==> outcome.reply.Answer?
    requires |c.day| == RateLimiter.DAY_LENGTH && t.key in terms && terms[t.key] == t.Terms()
    ensures MeteringLaws.Honest(RecorderOf(c, t, outcome), terms)
  {
  }

  /** The call with this outcome is written down. */
  ghost predicate Settled(before: Standing, counted: bool, c: Call, outcome: Outcome, after: Standing) {
    && c.token.Some? && (outcome.Answered? ==> outcome.reply.Answer?)
    && Accounted(before, counted, RecorderOf(c, c.token.value, outcome), after)
  }

  // ----- what a call does, in numbers -----------------------------------------------

  /** The token's counter of the day has grown by `n`, and the limiter keeps all else. */
  ghost predicate CountedUp(before: RateLimiter.Memory, after: RateLimiter.Memory, key: string, day: string, n: int) {
    && after.redisUp == before.redisUp && after.hashes == before.hashes
    && (forall k, d: string :: |d| == RateLimiter.DAY_LENGTH ==>
          && RateLimiter.Count(after.counters, RateLimiter.SuccessKey(k, d))
             == RateLimiter.Count(before.counters, RateLimiter.SuccessKey(k, d))
                + (if before.redisUp && k == key && d == day then n else 0)
          && RateLimiter.Count(after.daily, RateLimiter.DailyKey(k, d))
             == RateLimiter.Count(before.daily, RateLimiter.DailyKey(k, d))
                + (if !before.redisUp && k == key && d == day then n else 0))
  }

  lemma {:induction false} CountingUp(before: RateLimiter.Memory, key: string, day: string, n: nat)
    requires |day| == RateLimiter.DAY_LENGTH
    ensures CountedUp(before, RateLimiter.AfterCount(before, key, day, n), key, day, n)
  {
    forall k, d: string | |d| == RateLimiter.DAY_LENGTH
      ensures RateLimiter.SuccessKey(k, d) == RateLimiter.SuccessKey(key, day) ==> k == key && d == day
      ensures RateLimiter.DailyKey(k, d) == RateLimiter.DailyKey(key, day) ==> k == key && d == day
    {
      RateLimiter.CounterKeysInjective(k, d, key, day);
    }
    hide RateLimiter.SuccessKey, RateLimiter.DailyKey;
  }

  /** `n` successes of the token are counted and billed: the counter of the day, and one event
      at the token's price, or none if there is nothing to bill. */
  ghost predicate Billed(before: Standing, t: Token, chainID: string, methods: seq<string>, n: nat,
                         transport: string, kind: string, day: string, eventDay: string, id: string, after: Standing)
  {
    && CountedUp(before.kept, after.kept, t.key, day, n)
    && if n == 0 then after.events == before.events else
       var cents := if t.billingFree || t.price <= 0 then 0 else t.price * n;
       after.events == before.events
         + [Billing.Event(id, t.key, chainID, methods, n, !t.billingFree, cents, transport, kind, eventDay)]
  }

  /** Nothing is billed. */
  ghost predicate Unpaid(before: Standing, after: Standing) {
    after.kept == before.kept && after.events == before.events
  }

  /** What the customer of a call is charged, by what the upstream replied: results of a
      response that says success; nothing for another response below 500; and a failure of
      the upstream if it says 500 or more, or never came. */
  ghost predicate Charged(before: Standing, counted: bool, c: Call, t: Token, outcome: Outcome, after: Standing) {
    var key, chain, s := Some(t.key), Collector.Named(c.chainID), before.stats;
    && (!counted ==> after.stats == s)
    && if outcome.Answered? && outcome.reply.Answer? && outcome.reply.status < 500 then
         var reply := outcome.reply;
         if 200 <= reply.status < 300 then
           && Billed(before, t, c.chainID, c.methods, reply.successes, "http", "rpc",
                     c.day, c.eventDay, c.eventID, after)
           && (counted ==> Collector.Raised(s, after.stats, key, chain,
                             Collector.Forwarded(reply.successes, reply.errors, !t.billingFree)))
         else
           && Unpaid(before, after)
           && (counted ==> Collector.Raised(s, after.stats, key, chain, map[Requests := 1, Proxied := 1]))
       else
         && Unpaid(before, after)
         && (counted ==> Collector.Raised(s, after.stats, key, chain,
                           map[Requests := 1, Proxied := 1, UpstreamErrors := 1]))
  }

  lemma {:induction false} SettledIsCharged(before: Standing, counted: bool, c: Call, outcome: Outcome, after: Standing)
    requires Settled(before, counted, c, outcome, after) && |c.day| == RateLimiter.DAY_LENGTH
    ensures Charged(before, counted, c, c.token.value, outcome, after)
  {
    var t := c.token.value;
    var r := RecorderOf(c, t, outcome);
    if counted {
      Collector.AttemptRaises(before.stats, r, after.stats);
      Collector.CallRaises(before.stats, r, after.stats);
    }
    if outcome.Answered? && 200 <= outcome.reply.status < 300 {
      CountingUp(before.kept, t.key, c.day, outcome.reply.successes);
    }
    hide Collector.Credited, CountedUp;
  }

  class Handler {
    const registry: Registry.Registry
    const limiter: RateLimiter.Limiter
    const outbox: Outbox
    const stats: Collector.Collector?

    constructor (registry: Registry.Registry, limiter: RateLimiter.Limiter, outbox: Outbox, stats: Collector.Collector?)
      ensures this.registry == registry && this.limiter == limiter && this.outbox == outbox && this.stats == stats
    {
      this.registry, this.limiter, this.outbox, this.stats := registry, limiter, outbox, stats;
    }

    ghost function Ledgers(): set<object> {
      LedgersOf(limiter, outbox, stats)
    }

    ghost function Position(): Standing
      reads Ledgers()
    {
      PositionOf(limiter, outbox, stats)
    }

    method ServeHTTP(c: Call) returns (r: Response, ghost outcome: Outcome)
      requires registry.Valid()
      modifies Ledgers(), if c.chainID in registry.pools then {registry.pools[c.chainID]} else {}
      modifies if c.chainID in registry.pools then registry.pools[c.chainID].nodes else []
      ensures Refuses(c) == None ==>
        var pool := registry.pools[c.chainID];
        && pool.Valid() && (pool.View(), outcome) == Serve(old(pool.View()), c.forward)
        && Settled(old(Position()), stats != null, c, outcome, Position())
        && (|c.day| == RateLimiter.DAY_LENGTH ==>
              Charged(old(Position()), stats != null, c, c.token.value, outcome, Position()))
        && match outcome
           case NoUpstream => r == Response(502, Some(-32003))
           case Unavailable => r == Response(502, Some(-32004))
           case Answered(_, reply) => reply.Answer? && r == Response(reply.status, None)
      ensures Refuses(c) == (if !c.isPost then Some(Response(405, Some(-32600)))
                             else if c.token == None || c.chainID == "" then Some(Response(401, Some(-32001)))
                             else if c.chainID !in registry.pools then Some(Response(404, Some(-32002)))
                             else if !c.bodyRead then Some(Response(400, Some(-32700)))
                             else None)
      ensures Refuses(c).Some? ==> r == Refuses(c).value && Position() == old(Position())
      ensures Refuses(c).Some? && c.chainID in registry.pools ==>
        registry.pools[c.chainID].View() == old(registry.pools[c.chainID].View())
      ensures c.chainID in registry.pools ==>
        registry.pools[c.chainID].Valid() && registry.pools[c.chainID].nodes == old(registry.pools[c.chainID].nodes)
    {
      hide Serve, RecorderOf, Accounted, Charged, Balancer.PoolView.Valid;
      outcome := NoUpstream;
      if !c.isPost {
        r := Response(405, Some(-32600));
        return;
      }
      if c.token == None || c.chainID == "" {
        r := Response(401, Some(-32001));
        return;
      }
      var found := registry.Lookup(c.chainID);
      if found == None {
        r := Response(404, Some(-32002));
        return;
      }
      if !c.bodyRead {
        r := Response(400, Some(-32700));
        return;
      }
      outcome := Serve(found.value.View(), c.forward).1;
      r := Relay(found.value, c, c.token.value);
      if |c.day| == RateLimiter.DAY_LENGTH {
        SettledIsCharged(old(Position()), stats != null, c, outcome, Position());
      }
    }

    /** The requests that never reach an upstream. */
    ghost function Refuses(c: Call): Option<Response>
      reads registry
    {
      if !c.isPost then Some(Response(405, Some(-32600)))
      else if c.token == None || c.chainID == "" then Some(Response(401, Some(-32001)))
      else if c.chainID !in registry.pools then Some(Response(404, Some(-32002)))
      else if !c.bodyRead then Some(Response(400, Some(-32700)))
      else None
    }

    method Relay(pool: Balancer.Pool, c: Call, token: Token) returns (r: Response)
      requires pool.Valid()
      modifies Ledgers(), pool, pool.nodes
      ensures pool.Valid() && pool.nodes == old(pool.nodes) && pool.View() == Serve(old(pool.View()), c.forward).0
      ensures Accounted(old(Position()), stats != null, RecorderOf(c, token, Serve(old(pool.View()), c.forward).1),
                        Position())
      ensures r == ResponseTo(Serve(old(pool.View()), c.forward).1)
    {
      hide Serve, Told, RecorderOf, ResponseTo, Accounted, Balancer.PoolView.Valid;
      ghost var outcome := Serve(pool.View(), c.forward).1;
      var picked, reply := Reach(pool, c.forward);
      assert forall n :: n in pool.nodes ==> n !in Ledgers();
      assert pool !in Ledgers();
      assert Position() == old(Position());
      r := Settle(c, token, picked, reply, outcome);
    }

    /** The pick, the retry elsewhere, and the reports on the nodes. */
    method Reach(pool: Balancer.Pool, forward: string -> Reply) returns (picked: bool, reply: Reply)
      requires pool.Valid()
      modifies pool, pool.nodes
      ensures pool.Valid() && pool.nodes == old(pool.nodes) && pool.View() == Serve(old(pool.View()), forward).0
      ensures (picked, reply) == Told(Serve(old(pool.View()), forward).1)
    {
      ghost var p := pool.View();
      ServeIsAttempts(p, forward);
      hide Balancer.NextTurn, Balancer.WithReport, Serve, Retried;
      var first := pool.Next();
      if first == None {
        return false, Broken;
      }
      var node := first.value;
      ghost var i := Balancer.NextTurn(p, Balancer.Http).1.value;
      reply := forward(node.url);
      if reply.Answer? {
        Report(pool, node, i, reply.status);
        return true, reply;
      }
      pool.ReportFailure(node);
      reply := Retry(pool, node.url, forward);
      return true, reply;
    }

    method Retry(pool: Balancer.Pool, url: string, forward: string -> Reply) returns (reply: Reply)
      requires pool.Valid()
      modifies pool, pool.nodes
      ensures pool.Valid() && pool.nodes == old(pool.nodes)
      ensures (pool.View(), reply) == Retried(old(pool.View()), url, forward)
    {
      hide Balancer.NextTurn, Balancer.WithReport;
      ghost var q := pool.View();
      reply := Broken;
      var alt := pool.Next();
      if alt.Some? && alt.value.url != url {
        reply := forward(alt.value.url);
        if reply.Answer? {
          Report(pool, alt.value, Balancer.NextTurn(q, Balancer.Http).1.value, reply.status);
        }
      }
    }

    method Report(pool: Balancer.Pool, node: Balancer.Node, ghost i: nat, status: int)
      requires pool.Valid() && i < |pool.nodes| && pool.nodes[i] == node
      modifies node
      ensures pool.Valid() && pool.View() == Balancer.WithReport(old(pool.View()), i, status < 500)
    {
      if status >= 500 {
        pool.ReportFailure(node);
      } else {
        pool.ReportSuccess(node);
      }
    }

    method Record(t: Token, chainID: string, n: int, errors: int, upstreamErr: bool, billable: bool, ghost r: Recorder)
      requires r == if upstreamErr then Fail(t.Meta(), chainID) else Proxy(t.Meta(), chainID, n, errors, billable, None)
      modifies Ledgers()
      ensures Accounted(old(Position()), stats != null, r, Position())
    {
      if stats != null {
        stats.RecordProxy(t.Meta(), chainID, n, errors, upstreamErr, billable);
      }
    }

    method Settle(c: Call, token: Token, picked: bool, reply: Reply, ghost outcome: Outcome) returns (r: Response)
      requires outcome.Answered? ==> outcome.reply.Answer?
      requires (picked, reply) == Told(outcome)
      modifies Ledgers()
      ensures Accounted(old(Position()), stats != null, RecorderOf(c, token, outcome), Position())
      ensures r == ResponseTo(outcome)
    {
      hide Collector.Credited, Accounted;
      if !picked {
        Record(token, c.chainID, 0, 0, true, false, Fail(token.Meta(), c.chainID));
        return Response(502, Some(-32003));
      }
      if reply.Broken? {
        Record(token, c.chainID, 0, 0, true, false, Fail(token.Meta(), c.chainID));
        return Response(502, Some(-32004));
      }
      var successN, rpcErrN := 0, 0;
      if 200 <= reply.status < 300 {
        successN, rpcErrN := reply.successes, reply.errors;
      } else if reply.status >= 500 {
        Record(token, c.chainID, 0, 0, true, !token.billingFree, Fail(token.Meta(), c.chainID));
        return Response(reply.status, None);
      }
      RecordAndBill(c, token, successN, rpcErrN);
      return Response(reply.status, None);
    }

    method RecordAndBill(c: Call, token: Token, successN: nat, rpcErrN: nat)
      modifies Ledgers()
      ensures Accounted(old(Position()), stats != null,
                Proxy(token.Meta(), c.chainID, successN, rpcErrN, !token.billingFree,
                  BillFor(token, c.chainID, c.methods, successN, "http", "rpc", c.day, c.eventDay, c.eventID)),
                Position())
    {
      hide Collector.Credited, Accounted;
      var billable := !token.billingFree;
      ghost var before, r := Position(), Proxy(token.Meta(), c.chainID, successN, rpcErrN, billable,
        BillFor(token, c.chainID, c.methods, successN, "http", "rpc", c.day, c.eventDay, c.eventID));
      Record(token, c.chainID, successN, rpcErrN, false, billable, Unbilled(r));
      ghost var recorded := Position();
      if successN > 0 {
        Bill(token, c, successN, billable);
      }
      BillingCompletes(before, stats != null, recorded, r, Position());
    }

    method Bill(token: Token, c: Call, successN: int, billable: bool)
      requires successN > 0 && billable == !token.billingFree
      modifies limiter`counters, limiter`daily, outbox
      ensures limiter.Kept() == RateLimiter.AfterCount(old(limiter.Kept()), token.key, c.day, successN)
      ensures outbox.events == old(outbox.events) +
        [BillFor(token, c.chainID, c.methods, successN, "http", "rpc", c.day, c.eventDay, c.eventID).value.event]
    {
      limiter.IncrSuccess(token.key, c.day, successN);
      var amount := 0;
      if billable && token.price > 0 {
        amount := token.price * successN;
      }
      outbox.Put(Billing.Event(c.eventID, token.key, c.chainID, c.methods, successN, billable, amount, "http", "rpc",
                               c.eventDay));
    }
  }

  /** The second attempt, on another URL than the first. */
  function Retried(q: Balancer.PoolView, url: string, forward: string -> Reply): (Balancer.PoolView, Reply)
    requires q.Valid()
  {
    var (q1, second) := Balancer.NextTurn(q, Balancer.Http);
    if second.None? || q.nodes[second.value].url == url then (q1, Broken) else
    var reply := forward(q.nodes[second.value].url);
    if reply.Broken? then (q1, Broken) else
    (Balancer.WithReport(q1, second.value, reply.status < 500), reply)
  }

  lemma {:induction false} ServeIsAttempts(p: Balancer.PoolView, forward: string -> Reply)
    requires p.Valid()
    ensures var (p1, first) := Balancer.NextTurn(p, Balancer.Http);
            var served := Serve(p, forward);
            if first.None? then served == (p1, NoUpstream) else
            var reply := forward(p.nodes[first.value].url);
            && p1.nodes == p.nodes
            && if reply.Answer? then
                 served.0 == Balancer.WithReport(p1, first.value, reply.status < 500) && Told(served.1) == (true, reply)
               else
                 var q := Balancer.WithReport(p1, first.value, false);
                 && q.Valid() && (served.0, Told(served.1).1) == Retried(q, p.nodes[first.value].url, forward)
                 && Told(served.1).0
  {
  }

  /** What the caller of an upstream gets to know of the outcome. */
  function Told(outcome: Outcome): (bool, Reply) {
    match outcome
    case NoUpstream => (false, Broken)
    case Unavailable => (true, Broken)
    case Answered(_, reply) => (true, reply)
  }

  /** The same call before it is billed. */
  function Unbilled(r: Recorder): Recorder {
    match r
    case Proxy(meta, chain, successes, errors, billable, _) => Proxy(meta, chain, successes, errors, billable, None)
    case Push(meta, chain, raw, units, billable, _) => Push(meta, chain, raw, units, billable, None)
    case _ => r
  }

  /** The statistics do not depend on the bill that goes with them. */
  lemma {:induction false} BillingCompletes(before: Standing, counted: bool, recorded: Standing, r: Recorder,
                                            after: Standing)
    requires Accounted(before, counted, Unbilled(r), recorded) && after.stats == recorded.stats
    requires BillOf(r).None? ==> after == recorded
    requires BillOf(r).Some? ==>
      var b := BillOf(r).value;
      && after.kept == RateLimiter.AfterCount(recorded.kept, b.event.tokenKey, b.day, b.event.successN)
      && after.events == recorded.events + [b.event]
    ensures Accounted(before, counted, r, after)
  {
    var u := Unbilled(r);
    assert Delta(r) == Delta(u) && HasToken(r) == HasToken(u) && HasChain(r) == HasChain(u);
    forall t: MeteringLaws.Target
      ensures MeteringLaws.OwedTo(Owed(r), t) == MeteringLaws.OwedTo(Owed(u), t)
    {
    }
    if counted {
      assert Collector.SameTokens(before.stats, r, after.stats);
    }
  }
}
