/** A WebSocket session between a client and an upstream (internal/wsproxy/handler.go:159-378).
    Two pumps share the maps of pending requests and subscriptions; each takes the lock for
    one access at a time. */
module WsSession {
  import opened Sums
  import opened Metering
  import opened Gateway
  import Billing
  import Collector
  import MeteringLaws
  import RateLimiter

  // ----- what the two pumps share ---------------------------------------------------

  datatype Pending = Pending(rpc: string, subKind: string)

  datatype Track = Track(pending: map<string, Pending>, subs: map<string, string>, subN: int)

  predicate Over(t: Track, maxSubs: int) { t.subN >= maxSubs }

  function Registered(t: Track, id: string, p: Pending): Track { t.(pending := t.pending[id := p]) }

  function Taken(t: Track, id: string): Track { t.(pending := t.pending - {id}) }

  function Noted(t: Track, sid: string, kind: string): Track { t.(subs := t.subs[sid := kind], subN := t.subN + 1) }

  function Dropped(t: Track): Track { t.(subN := if t.subN > 0 then t.subN - 1 else t.subN) }

  // ----- messages, as parsed --------------------------------------------------------

  /** From the client. `methods` is missing if the request is invalid; `meta` holds the id,
      the method and the kind of subscription of a single request. */
  datatype Inbound = Inbound(isRequest: bool, methods: Option<seq<string>>, denied: bool,
                             meta: Option<(string, Pending)>)

  /** From the upstream: a push, or a reply with its counts and, if it is a single one, its
      id, whether it is free of error, and the subscription id in its result. */
  datatype Outbound =
    | Notification(rpc: string, subID: string)
    | Reply(successes: nat, errors: nat, meta: Option<Answer>)

  datatype Answer = Answer(id: string, ok: bool, sid: string)

  predicate Valid(m: Inbound) { m.isRequest ==> m.methods.Some? && !m.denied }

  /** The id and the request to be registered, if any. */
  function ToRegister(m: Inbound): Option<(string, Pending)> {
    if m.isRequest && m.methods.Some? && |m.methods.value| == 1 && m.meta.Some? && m.meta.value.0 != ""
    then m.meta else None
  }

  predicate TooMany(t: Track, maxSubs: int, m: Inbound) {
    ToRegister(m).Some? && ToRegister(m).value.1.rpc == "eth_subscribe" && maxSubs > 0 && Over(t, maxSubs)
  }

  function AfterInbound(t: Track, maxSubs: int, m: Inbound): Track {
    if Valid(m) && !TooMany(t, maxSubs, m) && ToRegister(m).Some?
    then Registered(t, ToRegister(m).value.0, ToRegister(m).value.1) else t
  }

  function AfterAnswer(t: Track, a: Answer): Track {
    if a.id == "" then t
    else if a.id !in t.pending then Taken(t, a.id)
    else
      var p, u := t.pending[a.id], Taken(t, a.id);
      if !a.ok then u
      else if p.rpc == "eth_subscribe" then if a.sid != "" then Noted(u, a.sid, p.subKind) else u
      else if p.rpc == "eth_unsubscribe" then Dropped(u)
      else u
  }

  function AfterOutbound(t: Track, m: Outbound): Track {
    if m.Reply? && m.meta.Some? then AfterAnswer(t, m.meta.value) else t
  }

  /** Successes and errors that a reply counts for. */
  function CountsOf(t: Track, m: Outbound): (nat, nat)
    requires m.Reply?
  {
    if m.successes == 0 && m.errors == 0 && m.meta.Some? && m.meta.value.id != "" && m.meta.value.id in t.pending
    then if m.meta.value.ok then (1, 0) else (0, 1)
    else (m.successes, m.errors)
  }

  function KindOf(t: Track, m: Outbound): string
    requires m.Notification?
  {
    if m.subID != "" && m.subID in t.subs && t.subs[m.subID] != "" then t.subs[m.subID] else m.rpc
  }

  /** The clock readings for the counter and for the event, and the event's fresh id. */
  datatype Stamp = Stamp(day: string, eventDay: string, eventID: string)

  function UnitsOf(billUnits: int): int { if billUnits <= 0 then 1 else billUnits }

  /** What a message from the upstream is written down as, if at all. */
  function RecorderFor(token: Token, chainID: string, billUnits: int, t: Track, m: Outbound,
                       at: Stamp): Option<Recorder> {
    match m
    case Notification(_, _) =>
      var n := UnitsOf(billUnits);
      Some(Recorder.Push(token.Meta(), chainID, 1, n, !token.billingFree,
                BillFor(token, chainID, [KindOf(t, m)], n, "ws", "ws_notification", at.day, at.eventDay, at.eventID)))
    case Reply(_, _, _) =>
      var (n, errors) := CountsOf(t, m);
      if n == 0 && errors == 0 then None else
      Some(Proxy(token.Meta(), chainID, n, errors, !token.billingFree,
                 BillFor(token, chainID, [], n, "ws", "rpc", at.day, at.eventDay, at.eventID)))
  }

  lemma {:induction false} RecorderIsHonest(token: Token, chainID: string, billUnits: int, t: Track, m: Outbound,
                                            at: Stamp, terms: map<string, MeteringLaws.Terms>)
    requires |at.day| == RateLimiter.DAY_LENGTH && token.key in terms && terms[token.key] == token.Terms()
    ensures var r := RecorderFor(token, chainID, billUnits, t, m, at); r.Some? ==> MeteringLaws.Honest(r.value, terms)
  {
  }

  /** A reply ends its request's wait. If it is free of error it adds the subscription that it
      names, under the kind that was asked for, or takes one off for an unsubscribe; nothing
      else changes the subscriptions. */
  lemma {:induction false} OutboundTracks(t: Track, m: Outbound)
    ensures var u := AfterOutbound(t, m);
            var replies := m.Reply? && m.meta.Some? && m.meta.value.id != "";
            && u.pending == (if replies then t.pending - {m.meta.value.id} else t.pending)
            && if replies && m.meta.value.ok && m.meta.value.id in t.pending then
                 var (a, asked) := (m.meta.value, t.pending[m.meta.value.id]);
                 if asked.rpc == "eth_subscribe" && a.sid != "" then
                   u.subs == t.subs[a.sid := asked.subKind] && u.subN == t.subN + 1
                 else
                   && u.subs == t.subs
                   && u.subN == t.subN - (if asked.rpc == "eth_unsubscribe" && t.subN > 0 then 1 else 0)
               else u.subs == t.subs && u.subN == t.subN
  {
  }

  // ----- what a message from the upstream does, in numbers --------------------------

  ghost predicate ReplyCharged(before: Standing, counted: bool, t: Token, chainID: string, n: nat, errors: nat,
                               at: Stamp, after: Standing)
  {
    && Billed(before, t, chainID, [], n, "ws", "rpc", at.day, at.eventDay, at.eventID, after)
    && (if counted then
          Collector.Raised(before.stats, after.stats, Some(t.key), Collector.Named(chainID),
                           Collector.Forwarded(n, errors, !t.billingFree))
        else after.stats == before.stats)
  }

  ghost predicate PushCharged(before: Standing, counted: bool, t: Token, chainID: string, kind: string, units: nat,
                              at: Stamp, after: Standing)
  {
    && Billed(before, t, chainID, [kind], units, "ws", "ws_notification", at.day, at.eventDay, at.eventID, after)
    && (if counted then
          Collector.Raised(before.stats, after.stats, Some(t.key), Collector.Named(chainID),
                           Collector.Pushed(1, units, !t.billingFree))
        else after.stats == before.stats)
  }

  /** A reply is charged for the results it counts; one that counts none, for the request that
      it answers, if that is pending; any other for nothing. A push is charged the configured
      units, under the kind of its subscription if that is known. */
  ghost predicate MessageCharged(before: Standing, counted: bool, token: Token, chainID: string, billUnits: int,
                          t: Track, m: Outbound, at: Stamp, after: Standing)
  {
    match m
    case Notification(rpc, subID) =>
      var known := subID != "" && subID in t.subs && t.subs[subID] != "";
      PushCharged(before, counted, token, chainID, if known then t.subs[subID] else rpc,
                  if billUnits > 0 then billUnits else 1, at, after)
    case Reply(successes, errors, meta) =>
      if successes > 0 || errors > 0 then ReplyCharged(before, counted, token, chainID, successes, errors, at, after)
      else if meta.Some? && meta.value.id != "" && meta.value.id in t.pending then
        if meta.value.ok then ReplyCharged(before, counted, token, chainID, 1, 0, at, after)
        else ReplyCharged(before, counted, token, chainID, 0, 1, at, after)
      else after == before
  }

  lemma {:induction false} RecordedIsCharged(before: Standing, counted: bool, token: Token, chainID: string,
                                             billUnits: int, t: Track, m: Outbound, at: Stamp, after: Standing)
    requires var r := RecorderFor(token, chainID, billUnits, t, m, at);
             if r.None? then after == before else Accounted(before, counted, r.value, after)
    ensures |at.day| == RateLimiter.DAY_LENGTH ==>
              MessageCharged(before, counted, token, chainID, billUnits, t, m, at, after)
  {
    var r := RecorderFor(token, chainID, billUnits, t, m, at);
    if r.Some? && |at.day| == RateLimiter.DAY_LENGTH {
      if counted {
        Collector.CallRaises(before.stats, r.value, after.stats);
      }
      CountingUp(before.kept, token.key, at.day, Successes(r.value));
    }
    hide Collector.Credited, CountedUp;
  }

  class Session {
    const token: Token
    const chainID: string
    const billUnits: int
    const maxSubs: int
    const limiter: RateLimiter.Limiter
    const outbox: Outbox
    const stats: Collector.Collector?
    var pending: map<string, Pending>
    var subs: map<string, string>
    var subN: int

    constructor (token: Token, chainID: string, billUnits: int, maxSubs: int,
                 limiter: RateLimiter.Limiter, outbox: Outbox, stats: Collector.Collector?)
      ensures View() == Track(map[], map[], 0)
    {
      this.token, this.chainID, this.billUnits, this.maxSubs := token, chainID, billUnits, maxSubs;
      this.limiter, this.outbox, this.stats := limiter, outbox, stats;
      pending, subs, subN := map[], map[], 0;
    }

    function View(): Track
      reads this
    {
      Track(pending, subs, subN)
    }

    ghost function Ledgers(): set<object> { LedgersOf(limiter, outbox, stats) }

    ghost function Position(): Standing
      reads Ledgers()
    {
      PositionOf(limiter, outbox, stats)
    }

    /** A message from the client: limited, checked, and registered if it is a single
        request. Only refusals are counted here. */
    method HandleInbound(ask: RateLimiter.Request, m: Inbound) returns (forwarded: bool)
      modifies this, Ledgers()
      ensures limiter.Kept() == RateLimiter.AfterAsk(old(limiter.Kept()), ask) && outbox.events == old(outbox.events)
      ensures var allowed := RateLimiter.Decide(old(limiter.Kept()), ask) == RateLimiter.Allowed;
              var single := m.isRequest && m.methods.Some? && |m.methods.value| == 1 && m.meta.Some?
                            && m.meta.value.0 != "";
              var full := single && m.meta.value.1.rpc == "eth_subscribe" && 0 < maxSubs <= old(subN);
              && forwarded == (allowed && (m.isRequest ==> m.methods.Some? && !m.denied) && !full)
              && subs == old(subs) && subN == old(subN)
              && pending == (if single && forwarded then old(pending)[m.meta.value.0 := m.meta.value.1]
                             else old(pending))
              && (stats != null ==>
                    if !allowed then
                      Collector.Raised(old(Position().stats), stats.View(), Some(token.key), None,
                                       map[RateLimited := 1, Requests := 1])
                    else if m.isRequest && m.methods.Some? && m.denied then
                      Collector.Raised(old(Position().stats), stats.View(), Some(token.key), None,
                                       map[MethodDenied := 1, Requests := 1])
                    else stats.View() == old(Position().stats))
      ensures var allowed := RateLimiter.Decide(old(limiter.Kept()), ask) == RateLimiter.Allowed;
              && forwarded == (allowed && Valid(m) && !TooMany(old(View()), maxSubs, m))
              && View() == (if allowed then AfterInbound(old(View()), maxSubs, m) else old(View()))
              && (stats != null ==>
                    if !allowed then Collector.Credited(old(Position().stats), LimitRate(token.Meta()), stats.View())
                    else if m.isRequest && m.methods.Some? && m.denied then
                      Collector.Credited(old(Position().stats), DenyMethod(token.Meta()), stats.View())
                    else stats.View() == old(Position().stats))
    {
      hide Collector.Credited, Collector.Raised;
      var v := limiter.Allow(ask, chainID);
      if v != RateLimiter.Allowed {
        if stats != null {
          stats.IncRateLimited(token.Meta());
        }
        return false;
      }
      if m.isRequest {
        if m.methods == None {
          return false;
        }
        if m.denied {
          if stats != null {
            stats.IncMethodDenied(token.Meta());
          }
          return false;
        }
        if |m.methods.value| == 1 && m.meta.Some? && m.meta.value.0 != "" {
          var (id, p) := m.meta.value;
          if p.rpc == "eth_subscribe" && maxSubs > 0 {
            if subN >= maxSubs {
              return false;
            }
          }
          pending := pending[id := p];
        }
      }
      return true;
    }

    /** A message from the upstream: counted, billed, and matched with what is pending. */
    method HandleOutbound(m: Outbound, at: Stamp)
      modifies this, Ledgers()
      ensures View() == AfterOutbound(old(View()), m)
      ensures var r := RecorderFor(token, chainID, billUnits, old(View()), m, at);
              if r.None? then Position() == old(Position())
              else Accounted(old(Position()), stats != null, r.value, Position())
      ensures |at.day| == RateLimiter.DAY_LENGTH ==>
                MessageCharged(old(Position()), stats != null, token, chainID, billUnits, old(View()), m, at,
                               Position())
    {
      hide Accounted, MessageCharged;
      ghost var before, t := Position(), View();
      if m.Notification? {
        var units := billUnits;
        if units <= 0 {
          units := 1;
        }
        var subKind := m.rpc;
        if m.subID != "" && m.subID in subs && subs[m.subID] != "" {
          subKind := subs[m.subID];
        }
        Push(units, subKind, at);
        RecordedIsCharged(before, stats != null, token, chainID, billUnits, t, m, at, Position());
        return;
      }
      var successN, rpcErrN := m.successes, m.errors;
      if m.meta.Some? && m.meta.value.id != "" {
        var found := m.meta.value.id in pending;
        Match(m.meta.value);
        if found && successN == 0 && rpcErrN == 0 {
          if m.meta.value.ok {
            successN := 1;
          } else {
            rpcErrN := 1;
          }
        }
      }
      if successN == 0 && rpcErrN == 0 {
        RecordedIsCharged(before, stats != null, token, chainID, billUnits, t, m, at, Position());
        return;
      }
      Answered(successN, rpcErrN, at);
      RecordedIsCharged(before, stats != null, token, chainID, billUnits, t, m, at, Position());
    }

    method Match(a: Answer)
      requires a.id != ""
      modifies this
      ensures View() == AfterAnswer(old(View()), a)
    {
      var found := a.id in pending;
      var pr := if found then pending[a.id] else Pending("", "");
      pending := pending - {a.id};
      if found {
        if a.ok && pr.rpc == "eth_subscribe" {
          if a.sid != "" {
            subs := subs[a.sid := pr.subKind];
            subN := subN + 1;
          }
        }
        if a.ok && pr.rpc == "eth_unsubscribe" {
          if subN > 0 {
            subN := subN - 1;
          }
        }
      }
    }

    method Push(units: int, subKind: string, at: Stamp)
      requires units > 0
      modifies Ledgers()
      ensures Accounted(old(Position()), stats != null,
                Recorder.Push(token.Meta(), chainID, 1, units, !token.billingFree,
                  BillFor(token, chainID, [subKind], units, "ws", "ws_notification", at.day, at.eventDay, at.eventID)),
                Position())
    {
      hide Collector.Credited;
      ghost var before, r := Position(), Recorder.Push(token.Meta(), chainID, 1, units, !token.billingFree,
        BillFor(token, chainID, [subKind], units, "ws", "ws_notification", at.day, at.eventDay, at.eventID));
      var billable := !token.billingFree;
      if stats != null {
        stats.RecordWSNotification(token.Meta(), chainID, 1, units, billable);
      }
      ghost var recorded := Position();
      Publish(units, billable, [subKind], "ws_notification", at);
      BillingCompletes(before, stats != null, recorded, r, Position());
    }

    method Answered(successN: nat, rpcErrN: nat, at: Stamp)
      modifies Ledgers()
      ensures Accounted(old(Position()), stats != null,
                Proxy(token.Meta(), chainID, successN, rpcErrN, !token.billingFree,
                  BillFor(token, chainID, [], successN, "ws", "rpc", at.day, at.eventDay, at.eventID)), Position())
    {
      hide Collector.Credited;
      ghost var before, r := Position(), Proxy(token.Meta(), chainID, successN, rpcErrN, !token.billingFree,
        BillFor(token, chainID, [], successN, "ws", "rpc", at.day, at.eventDay, at.eventID));
      var billable := !token.billingFree;
      if stats != null {
        stats.RecordProxy(token.Meta(), chainID, successN, rpcErrN, false, billable);
      }
      ghost var recorded := Position();
      if successN > 0 {
        Publish(successN, billable, [], "rpc", at);
      }
      BillingCompletes(before, stats != null, recorded, r, Position());
    }

    /** The daily counter and the billing event. */
    method Publish(successN: int, billable: bool, methods: seq<string>, kind: string, at: Stamp)
      requires successN > 0 && billable == !token.billingFree
      modifies limiter`counters, limiter`daily, outbox
      ensures limiter.Kept() == RateLimiter.AfterCount(old(limiter.Kept()), token.key, at.day, successN)
      ensures outbox.events == old(outbox.events) +
        [BillFor(token, chainID, methods, successN, "ws", kind, at.day, at.eventDay, at.eventID).value.event]
    {
      limiter.IncrSuccess(token.key, at.day, successN);
      var amount := 0;
      if billable && token.price > 0 {
        amount := token.price * successN;
      }
      outbox.Put(Billing.Event(at.eventID, token.key, chainID, methods, successN, billable, amount, "ws", kind,
                               at.eventDay));
    }
  }
}
