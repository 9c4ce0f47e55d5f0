/** Counting under concurrency (internal/stats/collector.go and the accounting of
    internal/proxy/handler.go:121-170 and internal/wsproxy/handler.go:275-378).

    Every recorder owes a set of additions: to the global counters, to the counters of its
    token, to those of the token's chain, to the daily counter and to the billing sink. It
    pays them one atomic addition at a time, each field globally first, then for the token,
    then for the chain, while any number of other recorders and of snapshot readers run. */
module Metering {
  import opened Sums
  import opened Billing
  import RateLimiter

  datatype Field =
    | Requests | Proxied | SuccessCalls | RPCErrors | UpstreamErrors | AuthFailed | MethodDenied
    | RateLimited | DomainRejected | BillableCalls | FreeCalls | WSConnections | WSNotifications

  /** A group of counters; a field that is missing is zero. */
  type Metrics = map<Field, int>

  const ZERO: Metrics := map[]

  function Get(m: Metrics, f: Field): int { if f in m then m[f] else 0 }

  function Add(m: Metrics, f: Field, n: int): Metrics { m[f := Get(m, f) + n] }

  ghost predicate IsZero(m: Metrics) { forall f: Field :: Get(m, f) == 0 }

  datatype Meta = Meta(key: string, name: string, plan: string, billingFree: bool, enabled: bool)

  datatype TokenState = TokenState(meta: Meta, metrics: Metrics, chains: map<string, Metrics>)

  datatype Stats = Stats(global: Metrics, tokens: map<string, TokenState>)

  /** Everything that successes are counted in. */
  datatype Books = Books(stats: Stats, daily: map<string, int>, events: seq<Event>)

  const EMPTY := Books(Stats(ZERO, map[]), map[], [])

  // ----- atomic operations on the books ---------------------------------------------

  function Ensured(s: Stats, meta: Meta): Stats {
    s.(tokens := s.tokens[meta.key :=
      if meta.key in s.tokens then s.tokens[meta.key].(meta := meta) else TokenState(meta, ZERO, map[])])
  }

  function ChainName(chain: string): string { if chain == "" then "_" else chain }

  function EnsuredChain(s: Stats, key: string, chain: string): Stats
    requires key in s.tokens
  {
    var t := s.tokens[key];
    if chain in t.chains then s else s.(tokens := s.tokens[key := t.(chains := t.chains[chain := ZERO])])
  }

  function AddGlobal(s: Stats, f: Field, n: int): Stats {
    s.(global := Add(s.global, f, n))
  }

  function AddToken(s: Stats, key: string, f: Field, n: int): Stats
    requires key in s.tokens
  {
    s.(tokens := s.tokens[key := s.tokens[key].(metrics := Add(s.tokens[key].metrics, f, n))])
  }

  function AddChain(s: Stats, key: string, chain: string, f: Field, n: int): Stats
    requires key in s.tokens && chain in s.tokens[key].chains
  {
    var t := s.tokens[key];
    s.(tokens := s.tokens[key := t.(chains := t.chains[chain := Add(t.chains[chain], f, n)])])
  }

  function AddDaily(daily: map<string, int>, key: string, day: string, n: int): map<string, int> {
    daily[RateLimiter.DailyKey(key, day) := RateLimiter.Count(daily, RateLimiter.DailyKey(key, day)) + n]
  }

  // ----- recorders and what they owe ------------------------------------------------

  /** How the successes of a call are accounted for: in the daily counter and as an event. */
  datatype Bill = Bill(day: string, event: Event)

  datatype Recorder =
    | RejectDomain
    | FailAuth
    | DenyMethod(meta: Meta)
    | LimitRate(meta: Meta)
    | Connect(meta: Meta, chain: string)
    | Fail(meta: Meta, chain: string)
    | Proxy(meta: Meta, chain: string, successes: int, errors: int, billable: bool, bill: Option<Bill>)
    | Push(meta: Meta, chain: string, raw: int, units: int, billable: bool, bill: Option<Bill>)
    | Register(meta: Meta)

  function Positive(n: int): int { if n > 0 then n else 0 }

  function Units(raw: int, units: int): int { if units <= 0 then raw else units }

  /** Successful calls, or units of a push, that the recorder counts. */
  function Successes(r: Recorder): int {
    if r.Proxy? then Positive(r.successes) else if r.Push? && r.raw > 0 then Units(r.raw, r.units) else 0
  }

  /** What the recorder adds to the global counters. */
  function Delta(r: Recorder): Metrics {
    match r
    case RejectDomain => map[DomainRejected := 1]
    case FailAuth => map[AuthFailed := 1, Requests := 1]
    case DenyMethod(_) => map[MethodDenied := 1, Requests := 1]
    case LimitRate(_) => map[RateLimited := 1, Requests := 1]
    case Connect(_, _) => map[WSConnections := 1]
    case Fail(_, _) => map[Requests := 1, Proxied := 1, UpstreamErrors := 1]
    case Proxy(_, _, _, errors, billable, _) =>
      map[Requests := 1, Proxied := 1, SuccessCalls := Successes(r), RPCErrors := Positive(errors),
          BillableCalls := if billable then Successes(r) else 0, FreeCalls := if billable then 0 else Successes(r)]
    case Push(_, _, raw, units, billable, _) =>
      map[WSNotifications := Positive(raw), SuccessCalls := Successes(r),
          BillableCalls := if billable then Successes(r) else 0, FreeCalls := if billable then 0 else Successes(r)]
    case Register(_) => ZERO
  }

  predicate HasToken(r: Recorder) { !r.RejectDomain? && !r.FailAuth? && (r.Push? ==> r.raw > 0) }
  predicate HasChain(r: Recorder) { r.Connect? || r.Fail? || r.Proxy? || (r.Push? && r.raw > 0) }
  function BillOf(r: Recorder): Option<Bill> { if r.Proxy? || r.Push? then r.bill else None }

  /** Additions still owed. A recorder that has found its token, or its chain, holds on to
      it; neither is ever removed. */
  datatype Debt = Debt(r: Recorder, global: Metrics, token: Metrics, chain: Metrics,
                       foundToken: bool, foundChain: bool, daily: Option<Bill>, event: Option<Bill>)
  {
    function Key(): string { if HasToken(r) then r.meta.key else "" }
    function Chain(): string { if HasChain(r) then ChainName(r.chain) else "" }
    ghost predicate Paid() { IsZero(global) && IsZero(token) && IsZero(chain) && daily == None && event == None }
  }

  function Owed(r: Recorder): Debt {
    Debt(r, Delta(r), if HasToken(r) then Delta(r) else ZERO, if HasChain(r) then Delta(r) else ZERO,
         false, false, BillOf(r), BillOf(r))
  }

  // ----- the machine ----------------------------------------------------------------

  /** A snapshot in the making. Its reader shares a lock with other readers that every
      change to the set of tokens, or to their metadata, needs for itself. */
  datatype Reader = Reader(seen: map<(string, Field), int>, total: map<Field, int>)

  datatype Overview = Overview(keys: set<string>, tokens: map<(string, Field), int>, total: map<Field, int>)

  datatype State = State(books: Books, debts: map<nat, Debt>, readers: map<nat, Reader>, overviews: seq<Overview>)

  datatype Step =
    | Start(id: nat, r: Recorder)
    | FindToken(id: nat)
    | FindChain(id: nat)
    | PayGlobal(id: nat, f: Field)
    | PayToken(id: nat, f: Field)
    | PayChain(id: nat, f: Field)
    | PayDaily(id: nat)
    | PayEvent(id: nat)
    | Finish(id: nat)
    | Lock(rid: nat)
    | LoadToken(rid: nat, key: string, f: Field)
    | LoadGlobal(rid: nat, f: Field)
    | Unlock(rid: nat)

  const INIT := State(EMPTY, map[], map[], [])

  predicate CanPayGlobal(d: Debt, f: Field) { Get(d.global, f) != 0 }
  predicate CanPayToken(d: Debt, f: Field) { d.foundToken && Get(d.token, f) != 0 && Get(d.global, f) == 0 }
  predicate CanPayChain(d: Debt, f: Field) { d.foundChain && Get(d.chain, f) != 0 && Get(d.token, f) == 0 }

  ghost predicate Enabled(s: State, step: Step) {
    match step
    case Start(id, r) => id !in s.debts
    case FindToken(id) => id in s.debts && HasToken(s.debts[id].r) && s.readers == map[]
    case FindChain(id) => id in s.debts && s.debts[id].foundToken && HasChain(s.debts[id].r)
    case PayGlobal(id, f) => id in s.debts && CanPayGlobal(s.debts[id], f)
    case PayToken(id, f) => id in s.debts && CanPayToken(s.debts[id], f)
    case PayChain(id, f) => id in s.debts && CanPayChain(s.debts[id], f)
    case PayDaily(id) => id in s.debts && s.debts[id].daily.Some?
    case PayEvent(id) => id in s.debts && s.debts[id].event.Some?
    case Finish(id) => id in s.debts && s.debts[id].Paid()
    case Lock(rid) => rid !in s.readers
    case LoadToken(rid, key, f) => rid in s.readers && key in s.books.stats.tokens && (key, f) !in s.readers[rid].seen
    case LoadGlobal(rid, f) =>
      rid in s.readers && f !in s.readers[rid].total &&
      forall key, g: Field :: key in s.books.stats.tokens ==> (key, g) in s.readers[rid].seen
    case Unlock(rid) => rid in s.readers && forall f: Field :: f in s.readers[rid].total
  }

  function Pay(s: State, id: nat, books: Books, d: Debt): State {
    s.(books := books, debts := s.debts[id := d])
  }

  /** A recorder that has found its token or chain finds it still there. */
  ghost predicate Finds(d: Debt, s: Stats) {
    && (d.foundToken ==> HasToken(d.r) && d.Key() in s.tokens)
    && (d.foundChain ==> d.foundToken && HasChain(d.r) && d.Chain() in s.tokens[d.Key()].chains)
  }

  ghost predicate Held(s: State) {
    forall id :: id in s.debts ==> Finds(s.debts[id], s.books.stats)
  }

  ghost function Apply(s: State, step: Step): State
    requires Held(s) && Enabled(s, step)
  {
    var b := s.books;
    match step
    case Start(id, r) => s.(debts := s.debts[id := Owed(r)])
    case FindToken(id) =>
      var d := s.debts[id];
      Pay(s, id, b.(stats := Ensured(b.stats, d.r.meta)), d.(foundToken := true))
    case FindChain(id) =>
      var d := s.debts[id];
      Pay(s, id, b.(stats := EnsuredChain(b.stats, d.Key(), d.Chain())), d.(foundChain := true))
    case PayGlobal(id, f) =>
      var d := s.debts[id];
      var n := Get(d.global, f);
      Pay(s, id, b.(stats := AddGlobal(b.stats, f, n)), d.(global := Add(d.global, f, -n)))
    case PayToken(id, f) =>
      var d := s.debts[id];
      var n := Get(d.token, f);
      Pay(s, id, b.(stats := AddToken(b.stats, d.Key(), f, n)), d.(token := Add(d.token, f, -n)))
    case PayChain(id, f) =>
      var d := s.debts[id];
      var n := Get(d.chain, f);
      Pay(s, id, b.(stats := AddChain(b.stats, d.Key(), d.Chain(), f, n)), d.(chain := Add(d.chain, f, -n)))
    case PayDaily(id) =>
      var d := s.debts[id];
      var bill := d.daily.value;
      Pay(s, id, b.(daily := AddDaily(b.daily, bill.event.tokenKey, bill.day, bill.event.successN)), d.(daily := None))
    case PayEvent(id) =>
      var d := s.debts[id];
      Pay(s, id, b.(events := b.events + [d.event.value.event]), d.(event := None))
    case Finish(id) => s.(debts := s.debts - {id})
    case Lock(rid) => s.(readers := s.readers[rid := Reader(map[], map[])])
    case LoadToken(rid, key, f) =>
      var r := s.readers[rid];
      s.(readers := s.readers[rid := r.(seen := r.seen[(key, f) := Get(b.stats.tokens[key].metrics, f)])])
    case LoadGlobal(rid, f) =>
      var r := s.readers[rid];
      s.(readers := s.readers[rid := r.(total := r.total[f := Get(b.stats.global, f)])])
    case Unlock(rid) =>
      var r := s.readers[rid];
      s.(readers := s.readers - {rid}, overviews := s.overviews + [Overview(b.stats.tokens.Keys, r.seen, r.total)])
  }

  /** No token and no chain is ever removed. */
  ghost predicate Keeps(s: Stats, u: Stats) {
    && s.tokens.Keys <= u.tokens.Keys
    && forall key :: key in s.tokens ==>
         s.tokens[key].chains.Keys <= u.tokens[key].chains.Keys
  }

  lemma {:induction false} PayHolds(s: State, id: nat, books: Books, d: Debt)
    requires Held(s) && Keeps(s.books.stats, books.stats) && Finds(d, books.stats)
    ensures Held(Pay(s, id, books, d))
  {
    var t := Pay(s, id, books, d);
    forall jd | jd in t.debts
      ensures Finds(t.debts[jd], books.stats)
    {
      if jd != id { assert Finds(s.debts[jd], s.books.stats); }
    }
  }

  lemma {:induction false} StepHolds(s: State, step: Step)
    requires Held(s) && Enabled(s, step)
    ensures Held(Apply(s, step))
  {
    if step.PayGlobal? || step.PayToken? || step.PayChain? {
      PaymentHolds(s, step);
    } else if step.FindToken? || step.FindChain? {
      LookupHolds(s, step);
    } else {
      hide Delta, Ensured, EnsuredChain, AddGlobal, AddToken, AddChain, Add;
    }
  }

  lemma {:induction false} PaymentHolds(s: State, step: Step)
    requires Held(s) && Enabled(s, step) && (step.PayGlobal? || step.PayToken? || step.PayChain?)
    ensures Held(Apply(s, step))
  {
    hide Delta, Add, Get;
    var t := Apply(s, step);
    assert Finds(s.debts[step.id], s.books.stats);
    PayHolds(s, step.id, t.books, t.debts[step.id]);
  }

  lemma {:induction false} LookupHolds(s: State, step: Step)
    requires Held(s) && Enabled(s, step) && (step.FindToken? || step.FindChain?)
    ensures Held(Apply(s, step))
  {
    hide Delta, Add, Get;
    var t := Apply(s, step);
    assert Finds(s.debts[step.id], s.books.stats);
    PayHolds(s, step.id, t.books, t.debts[step.id]);
  }
}
