/** The gateway at work: arrivals pass the middleware into the HTTP handler
    (cmd/gateway/main.go:145-172, internal/middleware/middleware.go:30-151), and messages of
    open WebSocket sessions pass their pumps. Handler, middleware and sessions share one
    limiter, one publisher and one collector, and the program itself is run here. */
module Traffic {
  import opened Sums
  import opened Metering
  import opened MeteringLaws
  import opened Gateway
  import opened WsSession
  import Collector
  import Balancer
  import Conservation
  import Failover
  import Ledger
  import RateLimiter
  import Registry

  // ----- books in order -------------------------------------------------------------

  /** Every law of counting holds, and successes are counted in process. */
  ghost predicate InOrder(s: Standing, terms: map<string, Terms>) {
    !s.kept.redisUp && forall law: Law :: Fits(law, terms) ==> Conservation.Satisfied(law, s)
  }

  lemma {:induction false} NothingIsOrderly(s: Standing, terms: map<string, Terms>)
    requires s.stats == Stats(ZERO, map[]) && s.events == [] && s.kept.daily == map[] && !s.kept.redisUp
    ensures InOrder(s, terms)
  {
    hide Fits, Conservation.Satisfied;
    forall law: Law | Fits(law, terms) ensures Conservation.Satisfied(law, s) {
      Conservation.NothingYet(law, s);
    }
  }

  lemma {:induction false} RecordingKeepsOrder(before: Standing, r: Recorder, after: Standing,
                                               terms: map<string, Terms>)
    requires InOrder(before, terms) && Honest(r, terms) && Accounted(before, true, r, after)
    ensures InOrder(after, terms)
  {
    hide Accounted, Honest, Balance, Correction, Fits;
    Conservation.HonestBills(r, terms);
    Conservation.StillInProcess(before, r, after);
    forall law: Law | Fits(law, terms) ensures Conservation.Satisfied(law, after) {
      Conservation.CallAdds(law, before, r, after);
      OwedAtFirst(law, r, terms);
    }
  }

  /** Asking the limiter counts nothing. */
  lemma {:induction false} AskingKeepsOrder(s: Standing, ask: RateLimiter.Request, terms: map<string, Terms>)
    requires InOrder(s, terms)
    ensures InOrder(s.(kept := RateLimiter.AfterAsk(s.kept, ask)), terms)
  {
    var asked := s.(kept := RateLimiter.AfterAsk(s.kept, ask));
    assert Conservation.BooksOf(asked) == Conservation.BooksOf(s) && asked.kept.redisUp == s.kept.redisUp;
    hide Fits, Balance, RateLimiter.AfterAsk, Conservation.BooksOf;
    forall law: Law | Fits(law, terms) ensures Conservation.Satisfied(law, asked) {
      assert Conservation.Satisfied(law, s);
    }
  }

  /** What order means for a token: successes are the daily counters and the billed units,
      and cents are price times billable calls, nothing for a free token. */
  lemma {:induction false} OrderlyAccountsAgree(s: Standing, terms: map<string, Terms>, key: string)
    requires InOrder(s, terms) && key in terms && terms[key].price >= 0
    ensures Agree(s, terms[key], key)
  {
    assert Conservation.Satisfied(Daily(key), s) && Conservation.Satisfied(Events(key), s);
    assert Conservation.Satisfied(Cents(key, terms[key].price), s);
    if terms[key].free {
      assert Conservation.Satisfied(Cents(key, 0), s);
    }
  }

  ghost predicate Agree(s: Standing, terms: Terms, key: string) {
    var m := Live(s.stats, OfToken(key));
    && Get(m, SuccessCalls) == DailyTotal(s.kept.daily, key) == EventUnits(s.events, key)
    && EventCents(s.events, key) == terms.price * Get(m, BillableCalls)
    && (terms.free ==> EventCents(s.events, key) == 0)
  }

  /** And the table counts, over all days, just the successes that the statistics show. */
  lemma {:induction false} OrderlyTablesAgree(s: Standing, terms: map<string, Terms>, ds: seq<Ledger.Delivery>,
                                              key: string)
    requires InOrder(s, terms) && Conservation.Delivered(s.events, ds)
    ensures Conservation.SuccessTotal(Ledger.After(ds), key) == Get(Live(s.stats, OfToken(key)), SuccessCalls)
  {
    assert Conservation.Satisfied(Events(key), s);
    Conservation.TablesShowUnits(s.events, ds, key);
  }

  // ----- traffic --------------------------------------------------------------------

  /** An HTTP request as the middleware finds it: whether its host is served, whose token its
      path names, whether its methods can be read, and whether they are denied. */
  datatype Arrival = Arrival(hostServed: bool, token: Option<Token>, parsed: bool, denied: bool,
                             ask: RateLimiter.Request, call: Call)

  datatype Message =
    | Http(a: Arrival)
    | Opened(session: nat)
    | FromClient(session: nat, ask: RateLimiter.Request, m: Inbound)
    | FromUpstream(session: nat, reply: Outbound, at: Stamp)

  /** The token is billed at these terms. */
  ghost predicate OnTerms(t: Token, terms: map<string, Terms>) { t.key in terms && terms[t.key] == t.Terms() }

  predicate ReachesLimiter(a: Arrival) {
    a.hostServed && a.token.Some? && a.call.bodyRead && a.parsed && !a.denied
  }

  ghost function Asked(s: Standing, a: Arrival): Standing {
    if ReachesLimiter(a) then s.(kept := RateLimiter.AfterAsk(s.kept, a.ask)) else s
  }

  /** What the middleware counts for an arrival, and its answer if it turns it away. */
  function TurnedAway(a: Arrival, v: RateLimiter.Verdict): (Option<Recorder>, Option<Response>) {
    if !a.hostServed then (Some(RejectDomain), Some(Response(403, Some(-32010))))
    else if a.token == None then (Some(FailAuth), Some(Response(401, Some(-32001))))
    else if !a.call.bodyRead then (None, Some(Response(400, Some(-32700))))
    else if !a.parsed then (None, Some(Response(400, Some(-32600))))
    else if a.denied then (Some(DenyMethod(a.token.value.Meta())), Some(Response(403, Some(-32601))))
    else if v != RateLimiter.Allowed then (Some(LimitRate(a.token.value.Meta())), Some(Response(429, Some(-32005))))
    else (None, None)
  }

  /** What a session counts for a message from its client that it refuses. */
  function RefusalOf(t: Token, allowed: bool, m: Inbound): Option<Recorder> {
    if !allowed then Some(LimitRate(t.Meta()))
    else if m.isRequest && m.methods.Some? && m.denied then Some(DenyMethod(t.Meta()))
    else None
  }

  /** What one message leaves in the books: nothing, or what one recorder says. */
  ghost predicate Entered(before: Standing, r: Option<Recorder>, after: Standing) {
    if r.Some? then Accounted(before, true, r.value, after) else after == before
  }

  class Server {
    const handler: Handler
    const sessions: seq<Session>

    constructor (handler: Handler, sessions: seq<Session>)
      ensures this.handler == handler && this.sessions == sessions
    {
      this.handler, this.sessions := handler, sessions;
    }

    ghost predicate Valid()
      reads *
    {
      && handler.registry.Valid() && handler.registry.Apart() && handler.stats != null
      && forall i :: 0 <= i < |sessions| ==> Shared(sessions[i])
    }

    /** The session writes to the same books as the handler. */
    ghost predicate Shared(s: Session) {
      s.limiter == handler.limiter && s.outbox == handler.outbox && s.stats == handler.stats && handler.stats != null
    }

    ghost function Nodes(): set<object>
      reads *
    {
      set id, n | id in handler.registry.pools && n in handler.registry.pools[id].nodes :: n
    }

    /** There is a route for every network, and none besides. */
    ghost predicate Routed(m: Message)
      reads handler.registry
    {
      if m.Http? then m.a.call.chainID in handler.registry.pools else m.session < |sessions|
    }

    /** Days are days, and every token that may be billed is billed at its terms. */
    ghost predicate OnTheseTerms(m: Message, terms: map<string, Terms>) {
      match m
      case Http(a) => |a.call.day| == RateLimiter.DAY_LENGTH && (a.token.Some? ==> OnTerms(a.token.value, terms))
      case FromUpstream(i, _, at) =>
        |at.day| == RateLimiter.DAY_LENGTH && (i < |sessions| ==> OnTerms(sessions[i].token, terms))
      case _ => true
    }

    /** What a message changes in the books. */
    ghost predicate Wrote(m: Message, before: Standing, after: Standing) {
      match m
      case Http(a) =>
        var (r, answer) := TurnedAway(a, RateLimiter.Decide(before.kept, a.ask));
        if answer.None? && a.call.isPost && a.call.chainID != "" then
          exists outcome: Failover.Outcome ::
            Settled(Asked(before, a), true, a.call.(token := a.token), outcome, after)
        else Entered(Asked(before, a), r, after)
      case Opened(i) =>
        i < |sessions| && Entered(before, Some(Connect(sessions[i].token.Meta(), sessions[i].chainID)), after)
      case FromClient(i, ask, m) =>
        && i < |sessions|
        && var allowed := RateLimiter.Decide(before.kept, ask) == RateLimiter.Allowed;
           Entered(before.(kept := RateLimiter.AfterAsk(before.kept, ask)), RefusalOf(sessions[i].token, allowed, m),
                   after)
      case FromUpstream(i, reply, at) =>
        && i < |sessions|
        && exists t: Track ::
             Entered(before, RecorderFor(sessions[i].token, sessions[i].chainID, sessions[i].billUnits, t, reply, at),
                     after)
    }

    /** Host, token, methods and rate are checked in this order before the handler. */
    method Screen(a: Arrival) returns (refusal: Option<Response>)
      requires handler.stats != null
      modifies handler.Ledgers()
      ensures var (r, answer) := TurnedAway(a, RateLimiter.Decide(old(handler.limiter.Kept()), a.ask));
              && refusal == answer
              && Entered(Asked(old(handler.Position()), a), r, handler.Position())
      ensures var before, s := old(handler.Position()), handler.stats.View();
              && handler.Position().events == before.events
              && if !a.hostServed then
                   refusal == Some(Response(403, Some(-32010))) && handler.Position().kept == before.kept
                   && Collector.Raised(before.stats, s, None, None, map[DomainRejected := 1])
                 else if a.token == None then
                   refusal == Some(Response(401, Some(-32001))) && handler.Position().kept == before.kept
                   && Collector.Raised(before.stats, s, None, None, map[AuthFailed := 1, Requests := 1])
                 else if !a.call.bodyRead || !a.parsed then
                   refusal == Some(Response(400, Some(if a.call.bodyRead then -32600 else -32700)))
                   && handler.Position() == before
                 else if a.denied then
                   refusal == Some(Response(403, Some(-32601))) && handler.Position().kept == before.kept
                   && Collector.Raised(before.stats, s, Some(a.token.value.key), None,
                                       map[MethodDenied := 1, Requests := 1])
                 else
                   && handler.Position().kept == RateLimiter.AfterAsk(before.kept, a.ask)
                   && if RateLimiter.Decide(before.kept, a.ask) == RateLimiter.Allowed then
                        refusal == None && s == before.stats
                      else
                        refusal == Some(Response(429, Some(-32005)))
                        && Collector.Raised(before.stats, s, Some(a.token.value.key), None,
                                            map[RateLimited := 1, Requests := 1])
    {
      hide Collector.Raised, Collector.Credited, RateLimiter.AfterAsk, RateLimiter.Decide, Delta;
      if !a.hostServed {
        handler.stats.IncDomainRejected();
        return Some(Response(403, Some(-32010)));
      }
      if a.token == None {
        handler.stats.IncAuthFailed();
        return Some(Response(401, Some(-32001)));
      }
      if !a.call.bodyRead {
        return Some(Response(400, Some(-32700)));
      }
      if !a.parsed {
        return Some(Response(400, Some(-32600)));
      }
      if a.denied {
        handler.stats.IncMethodDenied(a.token.value.Meta());
        return Some(Response(403, Some(-32601)));
      }
      var v := handler.limiter.Allow(a.ask, a.call.chainID);
      if v != RateLimiter.Allowed {
        handler.stats.IncRateLimited(a.token.value.Meta());
        return Some(Response(429, Some(-32005)));
      }
      return None;
    }

    /** The handler on the network of its route. */
    method Serve(c: Call) returns (r: Response, ghost outcome: Failover.Outcome)
      requires handler.registry.Valid() && handler.stats != null && c.chainID in handler.registry.pools
      modifies handler.Ledgers(), handler.registry.pools[c.chainID], handler.registry.pools[c.chainID].nodes
      ensures var pool := handler.registry.pools[c.chainID]; pool.Valid() && pool.nodes == old(pool.nodes)
      ensures if handler.Refuses(c).Some? then handler.Position() == old(handler.Position())
              else Settled(old(handler.Position()), true, c, outcome, handler.Position())
    {
      hide Settled, Balancer.Pool.Valid, Balancer.Pool.View, Failover.Serve;
      r, outcome := handler.ServeHTTP(c);
    }

    /** It leaves the registry sound. */
    method Handle(c: Call) returns (r: Response, ghost outcome: Failover.Outcome)
      requires Valid() && c.chainID in handler.registry.pools
      modifies handler.Ledgers(), handler.registry.pools.Values, Nodes()
      ensures Valid() && Nodes() == old(Nodes()) && handler.registry.pools == old(handler.registry.pools)
      ensures if handler.Refuses(c).Some? then handler.Position() == old(handler.Position())
              else Settled(old(handler.Position()), true, c, outcome, handler.Position())
    {
      hide Settled, Balancer.Pool.Valid, Balancer.Pool.View;
      ghost var pools := handler.registry.pools;
      ghost var pool := pools[c.chainID];
      assert forall n :: n in pool.nodes ==> n in Nodes();
      assert forall id :: id in pools && id != c.chainID ==> pools[id] != pool;
      assert forall id, n :: id in pools && id != c.chainID && n in pools[id].nodes ==> n !in pool.nodes;
      r, outcome := Serve(c);
      forall id | id in pools
        ensures pools[id].Valid() && pools[id].nodes == old(pools[id].nodes)
      {
        if id != c.chainID {
          assert pools[id] !in handler.Ledgers() && unchanged(pools[id]);
          assert forall n :: n in pools[id].nodes ==> n !in handler.Ledgers() && n !in old(pool.nodes);
          PoolStays(pools[id]);
        }
      }
    }

    /** The middleware does not touch the registry. */
    method Pass(a: Arrival) returns (refusal: Option<Response>)
      requires Valid()
      modifies handler.Ledgers()
      ensures Valid() && Nodes() == old(Nodes()) && handler.registry.pools == old(handler.registry.pools)
      ensures var (r, answer) := TurnedAway(a, RateLimiter.Decide(old(handler.Position()).kept, a.ask));
              refusal == answer && Entered(Asked(old(handler.Position()), a), r, handler.Position())
    {
      hide Accounted, Asked, TurnedAway, Balancer.Pool.Valid, Balancer.Pool.View;
      ghost var pools := handler.registry.pools;
      refusal := Screen(a);
      assert handler.registry !in handler.Ledgers();
      forall id | id in pools
        ensures pools[id].Valid() && pools[id].nodes == old(pools[id].nodes)
      {
        assert pools[id] !in handler.Ledgers();
        assert forall n :: n in pools[id].nodes ==> n !in handler.Ledgers();
      }
    }

    method Arrive(a: Arrival) returns (r: Response)
      requires Valid() && a.call.chainID in handler.registry.pools
      modifies handler.Ledgers(), handler.registry.pools.Values, Nodes()
      ensures Valid() && Nodes() == old(Nodes()) && handler.registry.pools == old(handler.registry.pools)
      ensures Wrote(Http(a), old(handler.Position()), handler.Position())
    {
      hide Settled, Accounted, Asked, Valid, Handler.Position, Handler.Ledgers, RateLimiter.Decide;
      var refusal := Pass(a);
      if refusal.Some? {
        return refusal.value;
      }
      var c := a.call.(token := a.token);
      ghost var outcome;
      r, outcome := Handle(c);
    }

    /** Session `i` is connected to its upstream. */
    method Open(i: nat)
      requires i < |sessions| && Shared(sessions[i])
      modifies handler.Ledgers()
      ensures Wrote(Opened(i), old(handler.Position()), handler.Position())
    {
      hide Collector.Credited;
      var s := sessions[i];
      handler.stats.RecordWSConnect(s.token.Meta(), s.chainID);
    }

    /** A message from the client of session `i`. */
    method Ask(i: nat, ask: RateLimiter.Request, m: Inbound)
      requires i < |sessions| && Shared(sessions[i])
      modifies handler.Ledgers(), sessions[i]
      ensures Wrote(FromClient(i, ask, m), old(handler.Position()), handler.Position())
    {
      hide Collector.Credited, RateLimiter.AfterAsk, RateLimiter.Decide, Delta;
      var forwarded := sessions[i].HandleInbound(ask, m);
    }

    /** A message from the upstream of session `i`. */
    method Answer(i: nat, reply: Outbound, at: Stamp)
      requires i < |sessions| && Shared(sessions[i])
      modifies handler.Ledgers(), sessions[i]
      ensures Wrote(FromUpstream(i, reply, at), old(handler.Position()), handler.Position())
    {
      hide Accounted, RecorderFor;
      ghost var t, before := sessions[i].View(), handler.Position();
      sessions[i].HandleOutbound(reply, at);
      assert Entered(before, RecorderFor(sessions[i].token, sessions[i].chainID, sessions[i].billUnits, t, reply, at),
                     handler.Position());
    }

    /** The sessions do not touch the registry. */
    method Exchange(message: Message)
      requires Valid() && !message.Http? && message.session < |sessions|
      modifies handler.Ledgers(), sessions
      ensures Valid() && Nodes() == old(Nodes()) && handler.registry.pools == old(handler.registry.pools)
      ensures Wrote(message, old(handler.Position()), handler.Position())
    {
      hide Wrote, Balancer.Pool.Valid, Balancer.Pool.View;
      ghost var pools := handler.registry.pools;
      match message {
        case Opened(i) => Open(i);
        case FromClient(i, ask, m) => Ask(i, ask, m);
        case FromUpstream(i, reply, at) => Answer(i, reply, at);
      }
      assert handler.registry !in handler.Ledgers();
      forall id | id in pools
        ensures pools[id].Valid() && pools[id].nodes == old(pools[id].nodes)
      {
        assert pools[id] !in handler.Ledgers();
        assert forall n :: n in pools[id].nodes ==> n !in handler.Ledgers();
      }
    }

    lemma {:induction false} WritingKeepsOrder(m: Message, before: Standing, after: Standing, terms: map<string, Terms>)
      requires OnTheseTerms(m, terms) && InOrder(before, terms) && Wrote(m, before, after)
      ensures InOrder(after, terms)
    {
      hide InOrder, Settled, Entered, RecorderFor, RateLimiter.Decide, RateLimiter.AfterAsk;
      match m {
        case Http(a) =>
          AskingKeepsOrder(before, a.ask, terms);
          var (r, answer) := TurnedAway(a, RateLimiter.Decide(before.kept, a.ask));
          if answer.None? && a.call.isPost && a.call.chainID != "" {
            var c := a.call.(token := a.token);
            var outcome: Failover.Outcome :| Settled(Asked(before, a), true, c, outcome, after);
            HandledKeepsOrder(Asked(before, a), c, outcome, after, terms);
          } else {
            EntryKeepsOrder(Asked(before, a), r, after, terms);
          }
        case Opened(i) =>
          EntryKeepsOrder(before, Some(Connect(sessions[i].token.Meta(), sessions[i].chainID)), after, terms);
        case FromClient(i, ask, m) =>
          AskingKeepsOrder(before, ask, terms);
          var allowed := RateLimiter.Decide(before.kept, ask) == RateLimiter.Allowed;
          EntryKeepsOrder(before.(kept := RateLimiter.AfterAsk(before.kept, ask)),
                          RefusalOf(sessions[i].token, allowed, m), after, terms);
        case FromUpstream(i, reply, at) =>
          var s := sessions[i];
          var t: Track :| Entered(before, RecorderFor(s.token, s.chainID, s.billUnits, t, reply, at), after);
          WsSession.RecorderIsHonest(s.token, s.chainID, s.billUnits, t, reply, at, terms);
          EntryKeepsOrder(before, RecorderFor(s.token, s.chainID, s.billUnits, t, reply, at), after, terms);
      }
    }

    /** The books after each message, and before the first. */
    ghost predicate History(messages: seq<Message>, books: seq<Standing>) {
      |books| == |messages| + 1 && forall k :: 0 <= k < |messages| ==> Wrote(messages[k], books[k], books[k + 1])
    }

    lemma {:induction false} HistoryGrows(messages: seq<Message>, books: seq<Standing>, m: Message, after: Standing)
      requires History(messages, books) && Wrote(m, books[|messages|], after)
      ensures History(messages + [m], books + [after])
    {
      hide Wrote;
    }

    lemma {:induction false} HistoryInOrder(messages: seq<Message>, books: seq<Standing>, terms: map<string, Terms>,
                                            n: nat)
      requires History(messages, books) && n <= |messages|
      requires var s := books[0];
               s.stats == Stats(ZERO, map[]) && s.events == [] && s.kept.daily == map[] && !s.kept.redisUp
      requires forall m :: m in messages ==> OnTheseTerms(m, terms)
      ensures InOrder(books[n], terms)
      decreases n
    {
      hide InOrder, Wrote, OnTheseTerms;
      if n == 0 {
        NothingIsOrderly(books[0], terms);
      } else {
        HistoryInOrder(messages, books, terms, n - 1);
        assert messages[n - 1] in messages;
        WritingKeepsOrder(messages[n - 1], books[n - 1], books[n], terms);
      }
    }

    method Take(m: Message)
      requires Valid() && Routed(m)
      modifies handler.Ledgers(), handler.registry.pools.Values, Nodes(), sessions
      ensures Valid() && Nodes() == old(Nodes()) && handler.registry.pools == old(handler.registry.pools)
      ensures Wrote(m, old(handler.Position()), handler.Position())
    {
      hide Valid, Wrote, Handler.Position, Handler.Ledgers;
      if m.Http? {
        var r := Arrive(m.a);
      } else {
        Exchange(m);
      }
    }

    /** The messages one after the other, from empty books. Each is written down, and
        whatever they are, the accounts of every token agree and every other law of counting
        holds. */
    method Run(messages: seq<Message>, ghost terms: map<string, Terms>) returns (ghost books: seq<Standing>)
      requires Valid() && forall m :: m in messages ==> Routed(m) && OnTheseTerms(m, terms)
      requires var s := handler.Position();
               s.stats == Stats(ZERO, map[]) && s.events == [] && s.kept.daily == map[] && !s.kept.redisUp
      modifies handler.Ledgers(), handler.registry.pools.Values, Nodes(), sessions
      ensures Valid() && History(messages, books)
      ensures books[0] == old(handler.Position()) && books[|messages|] == handler.Position()
      ensures InOrder(handler.Position(), terms)
      ensures forall key :: key in terms && terms[key].price >= 0 ==> Agree(handler.Position(), terms[key], key)
    {
      books := Record(messages);
      HistoryInOrder(messages, books, terms, |messages|);
      hide InOrder, Agree, History;
      forall key | key in terms && terms[key].price >= 0
        ensures Agree(handler.Position(), terms[key], key)
      {
        OrderlyAccountsAgree(handler.Position(), terms, key);
      }
    }

    method Record(messages: seq<Message>) returns (ghost books: seq<Standing>)
      requires Valid() && forall m :: m in messages ==> Routed(m)
      modifies handler.Ledgers(), handler.registry.pools.Values, Nodes(), sessions
      ensures Valid() && History(messages, books)
      ensures books[0] == old(handler.Position()) && books[|messages|] == handler.Position()
    {
      hide Valid, Wrote, Handler.Position, Handler.Ledgers;
      books := [handler.Position()];
      for k := 0 to |messages|
        invariant Valid() && handler.registry.pools == old(handler.registry.pools) && Nodes() == old(Nodes())
        invariant History(messages[..k], books)
        invariant books[0] == old(handler.Position()) && books[k] == handler.Position()
      {
        assert messages[k] in messages;
        Take(messages[k]);
        HistoryGrows(messages[..k], books, messages[k], handler.Position());
        assert messages[..k] + [messages[k]] == messages[..k + 1];
        books := books + [handler.Position()];
      }
      assert messages[..|messages|] == messages;
    }
  }

  lemma {:induction false} HandledKeepsOrder(before: Standing, c: Call, outcome: Failover.Outcome, after: Standing,
                                             terms: map<string, Terms>)
    requires InOrder(before, terms) && Settled(before, true, c, outcome, after)
    requires |c.day| == RateLimiter.DAY_LENGTH && (c.token.Some? ==> OnTerms(c.token.value, terms))
    ensures InOrder(after, terms)
  {
    hide InOrder, Accounted, RecorderOf;
    Gateway.RecorderIsHonest(c, c.token.value, outcome, terms);
    RecordingKeepsOrder(before, RecorderOf(c, c.token.value, outcome), after, terms);
  }

  /** A pool none of whose objects is touched stays sound. */
  twostate lemma {:induction false} PoolStays(p: Balancer.Pool)
    requires old(p.Valid()) && unchanged(p) && forall n :: n in p.nodes ==> unchanged(n)
    ensures p.Valid() && p.nodes == old(p.nodes)
  {
  }

  lemma {:induction false} EntryKeepsOrder(before: Standing, r: Option<Recorder>, after: Standing,
                                           terms: map<string, Terms>)
    requires InOrder(before, terms) && Entered(before, r, after) && (r.Some? ==> Honest(r.value, terms))
    ensures InOrder(after, terms)
  {
    hide InOrder, Accounted;
    if r.Some? {
      RecordingKeepsOrder(before, r.value, after, terms);
    }
  }
}
