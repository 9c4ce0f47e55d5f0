/** The two pumps of a session, one lock section at a time (internal/wsproxy/handler.go:251-331).

    The client's pump checks the limit and registers the request in two sections; the
    upstream's pump takes a pending request and books its effect in two more. The pumps
    interleave freely, and the upstream answers whatever it likes, whenever it likes. */
module WsProtocol {
  import opened Sums
  import opened WsSession

  /** `asking` is past the check and not yet registered, `taken` has been taken from the
      pending requests and not yet booked. Registrations are numbered: `serials` numbers
      the pending ones, `consumed` lists the numbers taken. `dropped` counts decrements.

      `live` are the subscriptions that the upstream has confirmed to the client and not
      ended. The session does not know them: `stray` counts decrements for replies that
      cancel none, `unbooked` confirmations that match no pending request, `unseen`
      subscriptions that ended, or were confirmed anew, without a decrement. */
  datatype State = State(t: Track, asking: Option<(string, Pending)>, taken: Option<Pending>,
                         serials: map<string, nat>, next: nat, consumed: seq<nat>, dropped: nat,
                         live: set<string>, stray: nat, unbooked: nat, unseen: nat)

  datatype Step =
    | Ask(id: string, p: Pending)
    | Register
    | Take(id: string)
    | Note(sid: string)       // a subscription is confirmed
    | Drop(cancels: bool)     // an eth_unsubscribe is answered without error, true or false
    | Ignore                  // any other reply
    | Confirm(sid: string)    // a subscription is confirmed in a batch, or to a request no longer pending
    | Finish(sid: string)     // a subscription ends without a booked reply

  const INIT := State(Track(map[], map[], 0), None, None, map[], 0, [], 0, {}, 0, 0, 0)

  function Subscribes(p: Pending): int { if p.rpc == "eth_subscribe" then 1 else 0 }

  function PendingSubscribes(pending: map<string, Pending>): set<string> {
    set id | id in pending && pending[id].rpc == "eth_subscribe"
  }

  /** Subscribe requests that are past the check and not yet booked. */
  function Unanswered(s: State): int {
    |PendingSubscribes(s.t.pending)|
    + (if s.asking.Some? then Subscribes(s.asking.value.1) else 0)
    + (if s.taken.Some? then Subscribes(s.taken.value) else 0)
  }

  /** A session's limit, and how many unanswered subscribes its client allows itself. */
  datatype Plan = Plan(maxSubs: int, inFlight: nat) {
    predicate Valid() { maxSubs > 0 }
  }

  predicate Enabled(plan: Plan, s: State, step: Step) {
    match step
    case Ask(id, p) =>
      && s.asking == None && id != ""
      && (p.rpc == "eth_subscribe" ==> !Over(s.t, plan.maxSubs) && Unanswered(s) < plan.inFlight)
    case Register => s.asking.Some?
    case Take(id) => s.taken == None && id in s.t.pending
    case Note(sid) => s.taken.Some? && s.taken.value.rpc == "eth_subscribe" && sid != ""
    case Drop(cancels) => s.taken.Some? && s.taken.value.rpc == "eth_unsubscribe"
        && (cancels ==> s.taken.value.subKind in s.live)
    case Ignore => s.taken.Some?
    case Confirm(_) => true
    case Finish(sid) => sid in s.live
  }

  function Apply(plan: Plan, s: State, step: Step): State
    requires Enabled(plan, s, step)
  {
    match step
    case Ask(id, p) => s.(asking := Some((id, p)))
    case Register =>
      var (id, p) := s.asking.value;
      s.(t := Registered(s.t, id, p), asking := None, serials := s.serials[id := s.next], next := s.next + 1)
    case Take(id) =>
      s.(t := Taken(s.t, id), taken := Some(s.t.pending[id]), serials := s.serials - {id},
         consumed := if id in s.serials then s.consumed + [s.serials[id]] else s.consumed)
    case Note(sid) =>
      s.(t := Noted(s.t, sid, s.taken.value.subKind), taken := None, live := s.live + {sid},
         unseen := if sid in s.live then s.unseen + 1 else s.unseen)
    case Drop(cancels) =>
      var n := if s.t.subN > 0 then 1 else 0;
      s.(t := Dropped(s.t), taken := None, dropped := s.dropped + n,
         live := if cancels then s.live - {s.taken.value.subKind} else s.live,
         stray := if cancels then s.stray else s.stray + n)
    case Ignore => s.(taken := None)
    case Confirm(sid) => s.(live := s.live + {sid}, unbooked := s.unbooked + 1)
    case Finish(sid) => s.(live := s.live - {sid}, unseen := s.unseen + 1)
  }

  ghost predicate Legal(plan: Plan, steps: seq<Step>) {
    steps == [] ||
    (Legal(plan, steps[..|steps| - 1]) && Enabled(plan, End(plan, steps[..|steps| - 1]), steps[|steps| - 1]))
  }

  ghost function End(plan: Plan, steps: seq<Step>): State {
    if steps == [] then INIT else
    var before := End(plan, steps[..|steps| - 1]);
    if Enabled(plan, before, steps[|steps| - 1]) then Apply(plan, before, steps[|steps| - 1]) else before
  }

  // ----- handlers are runs of these steps -------------------------------------------

  /** The client's handler registers in two steps, or changes nothing. */
  lemma {:induction false} InboundIsSteps(plan: Plan, s: State, m: Inbound)
    requires plan.Valid() && s.asking == None
    requires ToRegister(m).Some? && ToRegister(m).value.1.rpc == "eth_subscribe" ==> Unanswered(s) < plan.inFlight
    ensures var r := ToRegister(m);
            if Valid(m) && r.Some? && !TooMany(s.t, plan.maxSubs, m) then
              var ask := Ask(r.value.0, r.value.1);
              && Enabled(plan, s, ask) && Enabled(plan, Apply(plan, s, ask), Register)
              && Apply(plan, Apply(plan, s, ask), Register).t == AfterInbound(s.t, plan.maxSubs, m)
            else AfterInbound(s.t, plan.maxSubs, m) == s.t
  {
  }

  /** The step that books a reply; for an unsubscribe, `cancels` is what the upstream did. */
  function Booking(p: Pending, a: Answer, cancels: bool): Step {
    if a.ok && p.rpc == "eth_subscribe" && a.sid != "" then Note(a.sid)
    else if a.ok && p.rpc == "eth_unsubscribe" then Drop(cancels)
    else Ignore
  }

  /** The upstream's handler takes and books in two steps, or changes nothing; what it lets
      pass unbooked changes nothing it keeps. */
  lemma {:induction false} OutboundIsSteps(plan: Plan, s: State, m: Outbound, cancels: bool, sid: string)
    requires s.taken == None
    ensures if m.Reply? && m.meta.Some? && m.meta.value.id != "" && m.meta.value.id in s.t.pending then
              var a := m.meta.value;
              var p := s.t.pending[a.id];
              var take, book := Take(a.id), Booking(p, a, cancels);
              (cancels ==> p.subKind in s.live) ==>
                && Enabled(plan, s, take) && Enabled(plan, Apply(plan, s, take), book)
                && Apply(plan, Apply(plan, s, take), book).t == AfterOutbound(s.t, m)
            else AfterOutbound(s.t, m) == s.t == Apply(plan, s, Confirm(sid)).t
  {
    if m.Reply? && m.meta.Some? && m.meta.value.id !in s.t.pending {
      assert s.t.pending - {m.meta.value.id} == s.t.pending;
    }
  }

  /** A batch is forwarded at any subN and registers nothing. */
  lemma {:induction false} BatchIsNotCounted(t: Track, maxSubs: int, m: Inbound)
    requires m.isRequest && m.methods.Some? && |m.methods.value| != 1 && !m.denied
    ensures Valid(m) && !TooMany(t, maxSubs, m) && AfterInbound(t, maxSubs, m) == t
  {
  }

  // ----- the bound on subscriptions -------------------------------------------------

  ghost predicate Inv(plan: Plan, s: State) {
    && 0 <= s.t.subN && s.t.subN + Unanswered(s) <= plan.maxSubs - 1 + plan.inFlight
    && |s.t.subs| <= s.t.subN + s.dropped
    && |s.live| <= s.t.subN + s.stray + s.unbooked
    && s.t.subN <= |s.live| + s.unseen
  }

  lemma {:induction false} RegisterAddsOne(pending: map<string, Pending>, id: string, p: Pending)
    ensures |PendingSubscribes(pending[id := p])| <= |PendingSubscribes(pending)| + Subscribes(p)
    ensures id !in pending ==> |PendingSubscribes(pending[id := p])| == |PendingSubscribes(pending)| + Subscribes(p)
  {
    var before, after := PendingSubscribes(pending), PendingSubscribes(pending[id := p]);
    if Subscribes(p) == 1 {
      assert after == before + {id};
    } else {
      assert after == before - {id};
    }
  }

  lemma {:induction false} TakeRemovesOne(pending: map<string, Pending>, id: string)
    requires id in pending
    ensures |PendingSubscribes(pending - {id})| == |PendingSubscribes(pending)| - Subscribes(pending[id])
  {
    var before, after := PendingSubscribes(pending), PendingSubscribes(pending - {id});
    assert after == before - {id};
  }

  lemma {:induction false} Insert(live: set<string>, sid: string)
    ensures |live + {sid}| == |live| + (if sid in live then 0 else 1)
  {
    if sid in live { assert live + {sid} == live; }
  }

  lemma {:induction false} StepKeepsInv(plan: Plan, s: State, step: Step)
    requires plan.Valid() && Inv(plan, s) && Enabled(plan, s, step)
    ensures Inv(plan, Apply(plan, s, step))
  {
    match step {
      case Register => RegisterAddsOne(s.t.pending, s.asking.value.0, s.asking.value.1);
      case Take(id) => TakeRemovesOne(s.t.pending, id);
      case Note(sid) =>
        var kind := s.taken.value.subKind;
        assert s.t.subs[sid := kind].Keys == s.t.subs.Keys + {sid};
        assert |s.t.subs.Keys + {sid}| <= |s.t.subs.Keys| + 1;
        Insert(s.live, sid);
      case Confirm(sid) => Insert(s.live, sid);
      case Finish(sid) => assert |s.live - {sid}| == |s.live| - 1;
      case Drop(cancels) =>
        if cancels { assert |s.live - {s.taken.value.subKind}| == |s.live| - 1; }
      case _ =>
    }
  }

  lemma {:induction false} RunsKeepInv(plan: Plan, steps: seq<Step>)
    requires plan.Valid() && Legal(plan, steps)
    ensures Inv(plan, End(plan, steps))
    decreases |steps|
  {
    if steps == [] {
      assert PendingSubscribes(map[]) == {};
    } else {
      RunsKeepInv(plan, steps[..|steps| - 1]);
      StepKeepsInv(plan, End(plan, steps[..|steps| - 1]), steps[|steps| - 1]);
    }
  }

  /** With at most K unanswered subscribes, subN stays within maxSubs - 1 + K, however the
      pumps interleave. The subscriptions noted stay within that and the number of
      unsubscribes that were answered without error. */
  lemma {:induction false} SubscriptionBound(plan: Plan, steps: seq<Step>)
    requires plan.Valid() && Legal(plan, steps)
    ensures var s := End(plan, steps);
            && 0 <= s.t.subN <= plan.maxSubs - 1 + plan.inFlight
            && |s.t.subs| <= plan.maxSubs - 1 + plan.inFlight + s.dropped
  {
    RunsKeepInv(plan, steps);
  }

  // ----- every registration is answered at most once --------------------------------

  ghost predicate Numbered(s: State) {
    && s.serials.Keys == s.t.pending.Keys
    && (forall id :: id in s.serials ==> s.serials[id] < s.next && s.serials[id] !in s.consumed)
    && (forall id, jd :: id in s.serials && jd in s.serials && id != jd ==> s.serials[id] != s.serials[jd])
    && (forall i :: 0 <= i < |s.consumed| ==> s.consumed[i] < s.next)
    && (forall i, j :: 0 <= i < j < |s.consumed| ==> s.consumed[i] != s.consumed[j])
  }

  lemma {:induction false} StepKeepsNumbers(plan: Plan, s: State, step: Step)
    requires Numbered(s) && Enabled(plan, s, step)
    ensures Numbered(Apply(plan, s, step))
  {
  }

  /** No registration is consumed by two replies, and none that was not made. */
  lemma {:induction false} ConsumedOnce(plan: Plan, steps: seq<Step>)
    requires Legal(plan, steps)
    ensures Numbered(End(plan, steps))
    decreases |steps|
  {
    if steps != [] {
      ConsumedOnce(plan, steps[..|steps| - 1]);
      StepKeepsNumbers(plan, End(plan, steps[..|steps| - 1]), steps[|steps| - 1]);
    }
  }

  // ----- live subscriptions ---------------------------------------------------------

  /** Live subscriptions are within subN but for stray decrements and unbooked
      confirmations, in every run. */
  lemma {:induction false} LiveIsCovered(plan: Plan, steps: seq<Step>)
    requires plan.Valid() && Legal(plan, steps)
    ensures var s := End(plan, steps);
            && |s.live| <= s.t.subN + s.stray + s.unbooked
            && |s.live| <= plan.maxSubs - 1 + plan.inFlight + s.stray + s.unbooked
  {
    RunsKeepInv(plan, steps);
  }

  /** Every run with at most so many stray decrements and unbooked confirmations keeps live
      subscriptions within the limit. */
  ghost predicate LimitHolds(plan: Plan, limit: int, strays: nat, unbooked: nat) {
    forall steps ::
      Legal(plan, steps) && End(plan, steps).stray <= strays && End(plan, steps).unbooked <= unbooked ==>
      |End(plan, steps).live| <= limit
  }

  /** A client that never subscribes singly. */
  ghost predicate Silent(s: State) { s.t.subN == 0 && Unanswered(s) == 0 && s.stray == 0 }

  lemma {:induction false} StaysSilent(plan: Plan, s: State, step: Step)
    requires plan.inFlight == 0 && Silent(s) && Enabled(plan, s, step)
    ensures Silent(Apply(plan, s, step))
  {
    match step {
      case Register => RegisterAddsOne(s.t.pending, s.asking.value.0, s.asking.value.1);
      case Take(id) => TakeRemovesOne(s.t.pending, id);
      case _ =>
    }
  }

  lemma {:induction false} RunsStaySilent(plan: Plan, steps: seq<Step>)
    requires plan.inFlight == 0 && Legal(plan, steps)
    ensures Silent(End(plan, steps))
    decreases |steps|
  {
    if steps == [] {
      assert PendingSubscribes(map[]) == {};
    } else {
      RunsStaySilent(plan, steps[..|steps| - 1]);
      StaysSilent(plan, End(plan, steps[..|steps| - 1]), steps[|steps| - 1]);
    }
  }

  /** What the session itself lets through, maxSubs - 1 + K, bounds live subscriptions if and
      only if there is neither a stray decrement nor an unbooked confirmation. Only for a
      client that never subscribes singly, unbooked ones have that bound to themselves. */
  lemma {:induction false} LimitHoldsIff(plan: Plan, strays: nat, unbooked: nat)
    requires plan.Valid()
    ensures LimitHolds(plan, plan.maxSubs - 1 + plan.inFlight, strays, unbooked) <==>
            if plan.inFlight > 0 then strays == 0 && unbooked == 0 else unbooked < plan.maxSubs
  {
    var limit := plan.maxSubs - 1 + plan.inFlight;
    var few := if plan.inFlight > 0 then strays == 0 && unbooked == 0 else unbooked < plan.maxSubs;
    if few {
      FewKeepLimit(plan, limit, strays, unbooked);
    } else if plan.inFlight > 0 {
      var steps := OneTooMany(plan, strays > 0);
      assert |End(plan, steps).live| > limit;
    } else {
      var steps := ConfirmMany(plan, plan.maxSubs);
      CountNames(plan.maxSubs);
      assert |End(plan, steps).live| > limit;
    }
  }

  lemma {:induction false} FewKeepLimit(plan: Plan, limit: int, strays: nat, unbooked: nat)
    requires plan.Valid()
    requires if plan.inFlight == 0 then unbooked <= limit
             else plan.maxSubs - 1 + plan.inFlight + strays + unbooked <= limit
    ensures LimitHolds(plan, limit, strays, unbooked)
  {
    forall steps | Legal(plan, steps) && End(plan, steps).stray <= strays && End(plan, steps).unbooked <= unbooked
      ensures |End(plan, steps).live| <= limit
    {
      LiveIsCovered(plan, steps);
      if plan.inFlight == 0 { RunsStaySilent(plan, steps); }
    }
  }

  lemma {:induction false} BreaksLimit(plan: Plan, limit: int, strays: nat, unbooked: nat, steps: seq<Step>)
    requires Legal(plan, steps) && End(plan, steps).stray <= strays && End(plan, steps).unbooked <= unbooked
    requires |End(plan, steps).live| > limit
    ensures !LimitHolds(plan, limit, strays, unbooked)
  {
    hide Legal, End;
  }

  /** The configured limit, maxSubs, bounds live subscriptions if and only if the client waits
      for each confirmation before it subscribes again and there is neither a stray decrement
      nor an unbooked confirmation: subscribes in flight together all pass the check. */
  lemma {:induction false} ConfiguredLimitIff(plan: Plan, strays: nat, unbooked: nat)
    requires plan.Valid()
    ensures LimitHolds(plan, plan.maxSubs, strays, unbooked) <==>
            if plan.inFlight > 0 then plan.inFlight == 1 && strays == 0 && unbooked == 0 else unbooked <= plan.maxSubs
  {
    hide LimitHolds, Legal, End, Names;
    if plan.inFlight == 1 {
      LimitHoldsIff(plan, strays, unbooked);
    } else if plan.inFlight > 1 {
      var steps := AllAtOnce(plan);
      BreaksLimit(plan, plan.maxSubs, strays, unbooked, steps);
    } else if unbooked <= plan.maxSubs {
      FewKeepLimit(plan, plan.maxSubs, strays, unbooked);
    } else {
      var steps := ConfirmMany(plan, plan.maxSubs + 1);
      CountNames(plan.maxSubs + 1);
      BreaksLimit(plan, plan.maxSubs, strays, unbooked, steps);
    }
  }

  /** In the other direction, subN exceeds the live subscriptions by the unseen ends at most,
      in every run. */
  lemma {:induction false} SubNIsCovered(plan: Plan, steps: seq<Step>)
    requires plan.Valid() && Legal(plan, steps)
    ensures End(plan, steps).t.subN <= |End(plan, steps).live| + End(plan, steps).unseen
  {
    RunsKeepInv(plan, steps);
  }

  /** No subscribe is refused while fewer than maxSubs are live. */
  ghost predicate RoomIsUsed(plan: Plan, unseen: nat) {
    forall steps ::
      Legal(plan, steps) && End(plan, steps).unseen <= unseen && |End(plan, steps).live| < plan.maxSubs ==>
      !Over(End(plan, steps).t, plan.maxSubs)
  }

  /** A client with room left is never refused if and only if no subscription ends unseen. */
  lemma {:induction false} RoomIsUsedIff(plan: Plan, unseen: nat)
    requires plan.Valid()
    ensures RoomIsUsed(plan, unseen) <==> unseen == 0 || plan.inFlight == 0
  {
    if unseen == 0 || plan.inFlight == 0 {
      forall steps | Legal(plan, steps) && End(plan, steps).unseen <= unseen && |End(plan, steps).live| < plan.maxSubs
        ensures !Over(End(plan, steps).t, plan.maxSubs)
      {
        SubNIsCovered(plan, steps);
        if plan.inFlight == 0 { RunsStaySilent(plan, steps); }
      }
    } else {
      var steps := OneUnseen(plan);
      assert Over(End(plan, steps).t, plan.maxSubs);
    }
  }

  // ----- runs that break the limit --------------------------------------------------

  /** At most one subscription counted, and one request unanswered. */
  predicate IsLow(s: State) { s.t.subN <= 1 && Unanswered(s) <= 1 }

  /** So it is after every step. */
  ghost predicate Low(plan: Plan, steps: seq<Step>) {
    forall i :: 0 <= i <= |steps| ==> IsLow(End(plan, steps[..i]))
  }

  lemma {:induction false} NoSteps(plan: Plan)
    ensures Legal(plan, []) && End(plan, []) == INIT && Low(plan, [])
  {
    assert PendingSubscribes(map[]) == {};
  }

  lemma {:induction false} Extend(plan: Plan, steps: seq<Step>, step: Step)
    requires Legal(plan, steps) && Enabled(plan, End(plan, steps), step)
    ensures Legal(plan, steps + [step]) && End(plan, steps + [step]) == Apply(plan, End(plan, steps), step)
    ensures Low(plan, steps) && IsLow(End(plan, steps + [step])) ==> Low(plan, steps + [step])
  {
    var more := steps + [step];
    assert more[..|steps|] == steps && more[..|more|] == more;
    if Low(plan, steps) && IsLow(End(plan, more)) {
      forall i | 0 <= i <= |more|
        ensures IsLow(End(plan, more[..i]))
      {
        if i <= |steps| { assert more[..i] == steps[..i]; }
      }
    }
  }

  const SUBSCRIBE := Pending("eth_subscribe", "logs")
  const UNSUBSCRIBE := Pending("eth_unsubscribe", "0x0")

  function Name(n: nat): (s: string)
    ensures |s| == n + 1
  {
    seq(n + 1, _ => 'x')
  }

  function Names(n: nat): set<string> { set k: nat | k < n :: Name(k) }

  lemma {:induction false} NamesGrow(n: nat)
    ensures Names(n + 1) == Names(n) + {Name(n)} && Name(n) !in Names(n)
  {
  }

  lemma {:induction false} CountNames(n: nat)
    ensures |Names(n)| == n
    decreases n
  {
    if n == 0 {
      assert Names(0) == {};
    } else {
      CountNames(n - 1);
      NamesGrow(n - 1);
    }
  }

  /** Pending subscribes under the names from `lo` to `hi`. */
  function Waiting(lo: nat, hi: nat): map<string, Pending> {
    map id | id in Names(hi) && id !in Names(lo) :: SUBSCRIBE
  }

  lemma {:induction false} WaitingGrows(lo: nat, hi: nat)
    requires lo <= hi
    ensures Name(hi) !in Waiting(lo, hi) && Waiting(lo, hi + 1) == Waiting(lo, hi)[Name(hi) := SUBSCRIBE]
  {
    NamesGrow(hi);
    assert Name(hi) !in Names(lo);
  }

  lemma {:induction false} WaitingShrinks(lo: nat, hi: nat)
    requires lo < hi
    ensures Name(lo) in Waiting(lo, hi) && Waiting(lo + 1, hi) == Waiting(lo, hi) - {Name(lo)}
  {
    NamesGrow(lo);
  }

  lemma {:induction false} CountWaiting(lo: nat, hi: nat)
    requires lo <= hi
    ensures |PendingSubscribes(Waiting(lo, hi))| == hi - lo
    decreases hi
  {
    if lo == hi {
      assert PendingSubscribes(Waiting(lo, hi)) == {};
    } else {
      CountWaiting(lo, hi - 1);
      WaitingGrows(lo, hi - 1);
      RegisterAddsOne(Waiting(lo, hi - 1), Name(hi - 1), SUBSCRIBE);
    }
  }

  /** Between sections: the first `lo` names are live, those up to `hi` wait for a reply. */
  ghost predicate Stage(plan: Plan, steps: seq<Step>, lo: nat, hi: nat, subN: nat, strays: nat, unbooked: nat) {
    && Legal(plan, steps) && lo <= hi
    && var s := End(plan, steps);
       && s.asking == None && s.taken == None && s.t.pending == Waiting(lo, hi) && s.t.subN == subN
       && s.live == Names(lo) && s.stray == strays && s.unbooked == unbooked && s.unseen == 0
  }

  lemma {:induction false} AskOne(plan: Plan, steps: seq<Step>, lo: nat, hi: nat, subN: nat, strays: nat, unbooked: nat)
    returns (more: seq<Step>)
    requires Stage(plan, steps, lo, hi, subN, strays, unbooked) && hi - lo < plan.inFlight && subN < plan.maxSubs
    ensures Stage(plan, more, lo, hi + 1, subN, strays, unbooked)
    ensures Low(plan, steps) && lo == hi && subN <= 1 ==> Low(plan, more)
  {
    var s, ask := End(plan, steps), Ask(Name(hi), SUBSCRIBE);
    hide Legal, End, Low, Waiting, Names, Name, PendingSubscribes;
    AskAndRegister(plan, s, lo, hi);
    hide Enabled, Apply, IsLow;
    Extend(plan, steps, ask);
    Extend(plan, steps + [ask], Register);
    more := steps + [ask] + [Register];
  }

  /** What asking for one more subscription, and registering it, does to the state. */
  lemma {:induction false} AskAndRegister(plan: Plan, s: State, lo: nat, hi: nat)
    requires lo <= hi && s.asking == None && s.taken == None && s.t.pending == Waiting(lo, hi)
    requires hi - lo < plan.inFlight && s.t.subN < plan.maxSubs
    ensures var ask := Ask(Name(hi), SUBSCRIBE);
            Enabled(plan, s, ask) &&
            var asked := Apply(plan, s, ask);
            Enabled(plan, asked, Register) &&
            var u := Apply(plan, asked, Register);
            && u == s.(t := s.t.(pending := Waiting(lo, hi + 1)), serials := u.serials, next := u.next)
            && (lo == hi && s.t.subN <= 1 ==> IsLow(asked) && IsLow(u))
  {
    CountWaiting(lo, hi);
    WaitingGrows(lo, hi);
    CountWaiting(lo, hi + 1);
    assert Name(hi) != "";
    hide Waiting, Name, PendingSubscribes;
  }

  lemma {:induction false} NoteOne(plan: Plan, steps: seq<Step>, lo: nat, hi: nat, subN: nat, strays: nat,
                                   unbooked: nat)
    returns (more: seq<Step>)
    requires Stage(plan, steps, lo, hi, subN, strays, unbooked) && lo < hi
    ensures Stage(plan, more, lo + 1, hi, subN + 1, strays, unbooked)
    ensures Low(plan, steps) && hi == lo + 1 && subN == 0 ==> Low(plan, more)
  {
    WaitingShrinks(lo, hi);
    CountWaiting(lo + 1, hi);
    NamesGrow(lo);
    assert Waiting(lo, hi)[Name(lo)] == SUBSCRIBE;
    hide Legal, End, Low, Waiting, Names;
    Extend(plan, steps, Take(Name(lo)));
    Extend(plan, steps + [Take(Name(lo))], Note(Name(lo)));
    more := steps + [Take(Name(lo))] + [Note(Name(lo))];
  }

  /** An eth_unsubscribe that cancels nothing is answered without error. */
  lemma {:induction false} StrayOne(plan: Plan, steps: seq<Step>, n: nat, strays: nat, unbooked: nat)
    returns (more: seq<Step>)
    requires Stage(plan, steps, n, n, 1, strays, unbooked)
    ensures Stage(plan, more, n, n, 0, strays + 1, unbooked)
    ensures Low(plan, steps) ==> Low(plan, more)
  {
    CountWaiting(n, n);
    assert Waiting(n, n) == map[];
    var pending := map["1" := UNSUBSCRIBE];
    assert PendingSubscribes(pending) == {} && pending - {"1"} == map[];
    hide Legal, End, Low, Waiting, PendingSubscribes;
    var ask := Ask("1", UNSUBSCRIBE);
    Extend(plan, steps, ask);
    Extend(plan, steps + [ask], Register);
    assert End(plan, steps + [ask] + [Register]).t.pending == pending;
    Extend(plan, steps + [ask] + [Register], Take("1"));
    Extend(plan, steps + [ask] + [Register] + [Take("1")], Drop(false));
    more := steps + [ask] + [Register] + [Take("1")] + [Drop(false)];
  }

  /** `subN` requests one after the other. */
  lemma {:induction false} NoteMany(plan: Plan, steps: seq<Step>, n: nat, subN: nat, strays: nat, unbooked: nat)
    returns (more: seq<Step>)
    requires plan.inFlight >= 1 && subN <= plan.maxSubs && Stage(plan, steps, n, n, 0, strays, unbooked)
    ensures Stage(plan, more, n + subN, n + subN, subN, strays, unbooked)
    decreases subN
  {
    more := steps;
    if subN > 0 {
      more := NoteMany(plan, steps, n, subN - 1, strays, unbooked);
      hide Stage;
      more := AskOne(plan, more, n + subN - 1, n + subN - 1, subN - 1, strays, unbooked);
      more := NoteOne(plan, more, n + subN - 1, n + subN, subN - 1, strays, unbooked);
    }
  }

  /** `k` requests at once. */
  lemma {:induction false} AskMany(plan: Plan, steps: seq<Step>, n: nat, k: nat, subN: nat, strays: nat, unbooked: nat)
    returns (more: seq<Step>)
    requires k <= plan.inFlight && subN < plan.maxSubs && Stage(plan, steps, n, n, subN, strays, unbooked)
    ensures Stage(plan, more, n, n + k, subN, strays, unbooked)
    decreases k
  {
    more := steps;
    if k > 0 {
      more := AskMany(plan, steps, n, k - 1, subN, strays, unbooked);
      hide Stage;
      more := AskOne(plan, more, n, n + k - 1, subN, strays, unbooked);
    }
  }

  lemma {:induction false} AnswerMany(plan: Plan, steps: seq<Step>, n: nat, k: nat, j: nat, subN: nat, strays: nat,
                                      unbooked: nat)
    returns (more: seq<Step>)
    requires j <= k && Stage(plan, steps, n, n + k, subN, strays, unbooked)
    ensures Stage(plan, more, n + j, n + k, subN + j, strays, unbooked)
    decreases j
  {
    more := steps;
    if j > 0 {
      more := AnswerMany(plan, steps, n, k, j - 1, subN, strays, unbooked);
      hide Stage;
      more := NoteOne(plan, more, n + j - 1, n + k, subN + j - 1, strays, unbooked);
    }
  }

  /** One stray decrement, or one unbooked confirmation, and then as many subscriptions as
      the session lets through. */
  lemma {:induction false} OneTooMany(plan: Plan, byStray: bool) returns (steps: seq<Step>)
    requires plan.Valid() && plan.inFlight >= 1
    ensures Legal(plan, steps)
    ensures var s := End(plan, steps);
            && s.stray == (if byStray then 1 else 0) && s.unbooked == (if byStray then 0 else 1)
            && |s.live| == plan.maxSubs + plan.inFlight
  {
    hide Stage, Legal, End, Names;
    var x, y: nat := if byStray then 1 else 0, if byStray then 0 else 1;
    steps := FirstOne(plan, byStray);
    steps := NoteMany(plan, steps, 1, plan.maxSubs - 1, x, y);
    steps := AskMany(plan, steps, plan.maxSubs, plan.inFlight, plan.maxSubs - 1, x, y);
    steps := AnswerMany(plan, steps, plan.maxSubs, plan.inFlight, plan.inFlight, plan.maxSubs - 1, x, y);
    var all: nat := plan.maxSubs + plan.inFlight;
    CountNames(all);
    StageEnds(plan, steps, all, all, plan.maxSubs - 1 + plan.inFlight, x, y);
  }

  /** As many as the session lets through, without a stray decrement or an unbooked
      confirmation. */
  lemma {:induction false} AllAtOnce(plan: Plan) returns (steps: seq<Step>)
    requires plan.Valid() && plan.inFlight >= 1
    ensures Legal(plan, steps)
    ensures var s := End(plan, steps);
            s.stray == 0 && s.unbooked == 0 && |s.live| == plan.maxSubs - 1 + plan.inFlight
  {
    NothingYet(plan);
    hide Stage, Legal, End, Names;
    steps := NoteMany(plan, [], 0, plan.maxSubs - 1, 0, 0);
    steps := AskMany(plan, steps, plan.maxSubs - 1, plan.inFlight, plan.maxSubs - 1, 0, 0);
    steps := AnswerMany(plan, steps, plan.maxSubs - 1, plan.inFlight, plan.inFlight, plan.maxSubs - 1, 0, 0);
    var all: nat := plan.maxSubs - 1 + plan.inFlight;
    CountNames(all);
    StageEnds(plan, steps, all, all, all, 0, 0);
  }

  lemma {:induction false} NothingYet(plan: Plan)
    ensures Stage(plan, [], 0, 0, 0, 0, 0)
  {
    NoSteps(plan);
    assert Waiting(0, 0) == map[] && Names(0) == {};
  }

  /** The limit is reached and one subscription ends by itself. */
  lemma {:induction false} OneUnseen(plan: Plan) returns (steps: seq<Step>)
    requires plan.Valid() && plan.inFlight >= 1
    ensures Legal(plan, steps)
    ensures var s := End(plan, steps);
            s.unseen == 1 && s.t.subN == plan.maxSubs && |s.live| == plan.maxSubs - 1
  {
    NothingYet(plan);
    steps := NoteMany(plan, [], 0, plan.maxSubs, 0, 0);
    CountNames(plan.maxSubs);
    assert Name(0) in Names(plan.maxSubs);
    hide Legal, End, Names, Waiting;
    Extend(plan, steps, Finish(Name(0)));
    steps := steps + [Finish(Name(0))];
  }

  lemma {:induction false} StageEnds(plan: Plan, steps: seq<Step>, lo: nat, hi: nat, subN: nat, strays: nat,
                                     unbooked: nat)
    requires Stage(plan, steps, lo, hi, subN, strays, unbooked)
    ensures Legal(plan, steps)
    ensures var s := End(plan, steps); s.live == Names(lo) && s.stray == strays && s.unbooked == unbooked
  {
  }

  /** Nothing but unbooked confirmations. */
  lemma {:induction false} ConfirmMany(plan: Plan, n: nat) returns (steps: seq<Step>)
    ensures Legal(plan, steps)
    ensures var s := End(plan, steps); s.live == Names(n) && s.unbooked == n && s.stray == 0
    decreases n
  {
    if n == 0 {
      NoSteps(plan);
      assert Names(0) == {};
      steps := [];
    } else {
      var before := ConfirmMany(plan, n - 1);
      NamesGrow(n - 1);
      hide Legal, End, Names;
      Extend(plan, before, Confirm(Name(n - 1)));
      steps := before + [Confirm(Name(n - 1))];
    }
  }

  /** One live subscription that subN does not count. */
  lemma {:induction false} FirstOne(plan: Plan, byStray: bool) returns (steps: seq<Step>)
    requires plan.Valid() && plan.inFlight >= 1
    ensures Stage(plan, steps, 1, 1, 0, if byStray then 1 else 0, if byStray then 0 else 1)
  {
    NoSteps(plan);
    assert Waiting(0, 0) == map[] && Names(0) == {};
    if byStray {
      steps := AskOne(plan, [], 0, 0, 0, 0, 0);
      steps := NoteOne(plan, steps, 0, 1, 0, 0, 0);
      steps := StrayOne(plan, steps, 1, 0, 0);
    } else {
      NamesGrow(0);
      assert Waiting(1, 1) == map[];
      Extend(plan, [], Confirm(Name(0)));
      steps := [] + [Confirm(Name(0))];
    }
  }

  /** subN is not the number of live subscriptions: with one request at a time and subN
      never above one, any number of subscriptions can be live. */
  lemma {:induction false} LimitCanBeEvaded(plan: Plan, n: nat) returns (steps: seq<Step>)
    requires plan.Valid() && plan.inFlight >= 1
    ensures Legal(plan, steps) && |End(plan, steps).live| == n
    ensures forall i :: 0 <= i <= |steps| ==>
              var s := End(plan, steps[..i]); s.t.subN <= 1 && Unanswered(s) <= 1 && s.unbooked == 0
  {
    steps := Evade(plan, n);
    CountNames(n);
    forall i | 0 <= i <= |steps|
      ensures var s := End(plan, steps[..i]); s.t.subN <= 1 && Unanswered(s) <= 1 && s.unbooked == 0
    {
      assert IsLow(End(plan, steps[..i]));
      UnbookedGrows(plan, steps, i);
    }
  }

  lemma {:induction false} Evade(plan: Plan, n: nat) returns (steps: seq<Step>)
    requires plan.Valid() && plan.inFlight >= 1
    ensures Stage(plan, steps, n, n, 0, n, 0) && Low(plan, steps)
    decreases n
  {
    if n == 0 {
      NoSteps(plan);
      assert Waiting(0, 0) == map[] && Names(0) == {};
      steps := [];
    } else {
      steps := Evade(plan, n - 1);
      hide Stage, Low;
      steps := AskOne(plan, steps, n - 1, n - 1, 0, n - 1, 0);
      steps := NoteOne(plan, steps, n - 1, n, 0, n - 1, 0);
      steps := StrayOne(plan, steps, n, n - 1, 0);
    }
  }

  lemma {:induction false} UnbookedGrows(plan: Plan, steps: seq<Step>, i: nat)
    requires i <= |steps|
    ensures End(plan, steps[..i]).unbooked <= End(plan, steps).unbooked
    decreases |steps|
  {
    if i == |steps| {
      assert steps[..i] == steps;
    } else {
      var before := steps[..|steps| - 1];
      UnbookedGrows(plan, before, i);
      assert before[..i] == steps[..i];
    }
  }
}
