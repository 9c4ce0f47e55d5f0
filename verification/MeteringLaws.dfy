/** What every run of the metering machine conserves. */
module MeteringLaws {
  import opened Sums
  import opened Billing
  import opened Metering
  import RateLimiter

  // ----- readings of the books ------------------------------------------------------

  datatype Target = Everyone | OfToken(key: string) | OfChain(key: string, chain: string)

  function Live(s: Stats, t: Target): Metrics {
    match t
    case Everyone => s.global
    case OfToken(key) => if key in s.tokens then s.tokens[key].metrics else ZERO
    case OfChain(key, chain) =>
      if key in s.tokens && chain in s.tokens[key].chains then s.tokens[key].chains[chain] else ZERO
  }

  /** What is still owed to the target. */
  function OwedTo(d: Debt, t: Target): Metrics {
    match t
    case Everyone => d.global
    case OfToken(key) => if HasToken(d.r) && d.Key() == key then d.token else ZERO
    case OfChain(key, chain) => if HasChain(d.r) && d.Key() == key && d.Chain() == chain then d.chain else ZERO
  }

  function TokenValues(s: Stats, f: Field): map<string, int> {
    map key | key in s.tokens :: Get(s.tokens[key].metrics, f)
  }

  function ChainValues(t: TokenState, f: Field): map<string, int> {
    map c | c in t.chains :: Get(t.chains[c], f)
  }

  ghost function TokenTotal(s: Stats, f: Field): int { Total(TokenValues(s, f)) }

  ghost function ChainTotal(s: Stats, key: string, f: Field): int {
    if key in s.tokens then Total(ChainValues(s.tokens[key], f)) else 0
  }

  /** The token that a daily counter belongs to: its key ends in a colon and a day. */
  function TokenOf(k: string): string {
    if |k| > RateLimiter.DAY_LENGTH then k[..|k| - RateLimiter.DAY_LENGTH - 1] else ""
  }

  function DailyValues(daily: map<string, int>, key: string): map<string, int> {
    map k | k in daily && TokenOf(k) == key :: daily[k]
  }

  ghost function DailyTotal(daily: map<string, int>, key: string): int { Total(DailyValues(daily, key)) }

  ghost function EventUnits(events: seq<Event>, key: string): int {
    if events == [] then 0 else
    var last := events[|events| - 1];
    EventUnits(events[..|events| - 1], key) + (if last.tokenKey == key then last.successN else 0)
  }

  ghost function EventCents(events: seq<Event>, key: string): int {
    if events == [] then 0 else
    var last := events[|events| - 1];
    EventCents(events[..|events| - 1], key) + (if last.tokenKey == key then last.amountCents else 0)
  }

  // ----- the laws -------------------------------------------------------------------

  /** Combinations of the counters of one target. */
  datatype Gap =
    | Zero(f: Field)          // the field itself, where it never moves
    | Refusals                // requests - refused - proxied
    | Unsplit                 // successes - billable - free
    | Undelivered             // proxied - upstream errors

  function GapOf(g: Gap, m: Metrics): int {
    match g
    case Zero(f) => Get(m, f)
    case Refusals => Get(m, Requests) - Get(m, AuthFailed) - Get(m, MethodDenied) - Get(m, RateLimited)
                     - Get(m, Proxied)
    case Unsplit => Get(m, SuccessCalls) - Get(m, BillableCalls) - Get(m, FreeCalls)
    case Undelivered => Get(m, Proxied) - Get(m, UpstreamErrors)
  }

  /** Each law says that a reading of the books, corrected by what is owed, is zero if the law
      is exact, and never negative. */
  datatype Law =
    | OnTarget(t: Target, gap: Gap)
    | GlobalLevel(f: Field, exact: bool)               // global against the sum of tokens
    | TokenLevel(key: string, f: Field, exact: bool)   // token against the sum of its chains
    | Daily(key: string)                               // token successes = daily counters
    | Events(key: string)                              // token successes = billed units
    | Cents(key: string, price: int)                   // billed cents = price * billable calls

  predicate Exact(law: Law) {
    match law
    case OnTarget(_, gap) => !gap.Undelivered?
    case GlobalLevel(_, exact) => exact
    case TokenLevel(_, _, exact) => exact
    case _ => true
  }

  /** Requests reach a level above without reaching the one below: failed logins, refusals. */
  function AboveTokens(f: Field, exact: bool, m: Metrics): int {
    Get(m, f) - (if exact && f == Requests then Get(m, AuthFailed) else 0)
  }

  function AboveChains(f: Field, exact: bool, m: Metrics): int {
    Get(m, f) - (if exact && f == Requests then Get(m, MethodDenied) + Get(m, RateLimited) else 0)
  }

  ghost function Balance(law: Law, b: Books): int {
    var s := b.stats;
    match law
    case OnTarget(t, gap) => GapOf(gap, Live(s, t))
    case GlobalLevel(f, exact) => AboveTokens(f, exact, s.global) - TokenTotal(s, f)
    case TokenLevel(key, f, exact) => AboveChains(f, exact, Live(s, OfToken(key))) - ChainTotal(s, key, f)
    case Daily(key) => Get(Live(s, OfToken(key)), SuccessCalls) - DailyTotal(b.daily, key)
    case Events(key) => Get(Live(s, OfToken(key)), SuccessCalls) - EventUnits(b.events, key)
    case Cents(key, price) => price * Get(Live(s, OfToken(key)), BillableCalls) - EventCents(b.events, key)
  }

  function UnitsOwed(bill: Option<Bill>, key: string): int {
    if bill.Some? && bill.value.event.tokenKey == key then bill.value.event.successN else 0
  }

  function CentsOwed(bill: Option<Bill>, key: string): int {
    if bill.Some? && bill.value.event.tokenKey == key then bill.value.event.amountCents else 0
  }

  function Correction(law: Law, d: Debt): int {
    match law
    case OnTarget(t, gap) => GapOf(gap, OwedTo(d, t))
    case GlobalLevel(f, exact) =>
      if exact || HasToken(d.r) then AboveTokens(f, exact, d.global) - Get(d.token, f) else 0
    case TokenLevel(key, f, exact) =>
      if HasToken(d.r) && d.Key() == key && (exact || HasChain(d.r))
      then AboveChains(f, exact, d.token) - Get(d.chain, f) else 0
    case Daily(key) => Get(OwedTo(d, OfToken(key)), SuccessCalls) - UnitsOwed(d.daily, key)
    case Events(key) => Get(OwedTo(d, OfToken(key)), SuccessCalls) - UnitsOwed(d.event, key)
    case Cents(key, price) => price * Get(OwedTo(d, OfToken(key)), BillableCalls) - CentsOwed(d.event, key)
  }

  function CorrectionValues(law: Law, debts: map<nat, Debt>): map<nat, int> {
    map id | id in debts :: Correction(law, debts[id])
  }

  ghost function Corrections(law: Law, debts: map<nat, Debt>): int { Total(CorrectionValues(law, debts)) }

  ghost predicate Holds(law: Law, s: State) {
    var sum := Balance(law, s.books) + Corrections(law, s.debts);
    if Exact(law) then sum == 0 else sum >= 0
  }

  /** The fields for which a law is claimed. */
  predicate Sound(law: Law) {
    match law
    case OnTarget(t, gap) =>
      gap.Zero? ==>
        || (t.OfToken? && (gap.f == AuthFailed || gap.f == DomainRejected))
        || (t.OfChain? && (gap.f == AuthFailed || gap.f == DomainRejected || gap.f == MethodDenied
                           || gap.f == RateLimited))
    case GlobalLevel(f, exact) => exact ==> f != AuthFailed && f != DomainRejected
    case TokenLevel(key, f, exact) => exact ==> f != MethodDenied && f != RateLimited
    case _ => true
  }

  /** One token's terms: whether its calls are free, and their price. */
  datatype Terms = Terms(free: bool, price: int)

  /** The handlers bill what they count: a call or push with successes carries a bill for as
      many units, for its own token, on a day, at the token's terms. */
  predicate Honest(r: Recorder, terms: map<string, Terms>) {
    (r.Proxy? || r.Push?) ==>
      var n := Successes(r);
      && (r.bill.None? ==> n == 0)
      && (r.bill.Some? ==>
            var b := r.bill.value;
            && |b.day| == RateLimiter.DAY_LENGTH
            && b.event.successN == n > 0
            && b.event.tokenKey == r.meta.key
            && r.meta.key in terms
            && r.billable == !terms[r.meta.key].free
            && b.event.amountCents == Amount(r.billable, terms[r.meta.key].price, n))
  }

  /** The law about cents speaks of the token's own price, or of any price if it is free. */
  predicate Fits(law: Law, terms: map<string, Terms>) {
    && Sound(law)
    && (law.Cents? ==>
          law.price >= 0 && (law.key in terms ==> terms[law.key].free || terms[law.key].price == law.price))
  }

  // ----- what a recorder owes at first ----------------------------------------------

  lemma {:induction false} DeltaSplits(r: Recorder)
    ensures var m := Delta(r);
            && GapOf(Refusals, m) == 0 && GapOf(Unsplit, m) == 0 && GapOf(Undelivered, m) >= 0
            && Get(m, SuccessCalls) == Successes(r)
            && Get(m, BillableCalls) == if (r.Proxy? || r.Push?) && r.billable then Successes(r) else 0
  {
  }

  lemma {:induction false} DeltaLevels(r: Recorder, f: Field)
    ensures var m := Delta(r);
            && Get(m, f) >= 0
            && (HasToken(r) ==> Get(m, AuthFailed) == 0 && Get(m, DomainRejected) == 0)
            && (HasChain(r) ==> HasToken(r) && Get(m, MethodDenied) == 0 && Get(m, RateLimited) == 0)
            && (!HasToken(r) ==>
                  && Get(m, Requests) == Get(m, AuthFailed)
                  && (f == Requests || f == AuthFailed || f == DomainRejected || Get(m, f) == 0))
            && (!HasChain(r) && HasToken(r) ==>
                  && Get(m, Requests) == Get(m, MethodDenied) + Get(m, RateLimited)
                  && (f == Requests || f == MethodDenied || f == RateLimited || Get(m, f) == 0))
  {
  }

  /** What a new recorder owes does not disturb any law. */
  lemma {:induction false} OwedAtFirst(law: Law, r: Recorder, terms: map<string, Terms>)
    requires Fits(law, terms) && Honest(r, terms)
    ensures if Exact(law) then Correction(law, Owed(r)) == 0 else Correction(law, Owed(r)) >= 0
  {
    if law.OnTarget? {
      TargetOwedAtFirst(law, r);
    } else if law.GlobalLevel? || law.TokenLevel? {
      DeltaLevels(r, law.f);
    } else {
      BillOwedAtFirst(law, r, terms);
    }
  }

  lemma {:induction false} TargetOwedAtFirst(law: Law, r: Recorder)
    requires Sound(law) && law.OnTarget?
    ensures if Exact(law) then Correction(law, Owed(r)) == 0 else Correction(law, Owed(r)) >= 0
  {
    DeltaSplits(r);
    assert OwedTo(Owed(r), law.t) == Delta(r) || OwedTo(Owed(r), law.t) == ZERO;
    if law.gap.Zero? {
      DeltaLevels(r, law.gap.f);
    }
  }

  lemma {:induction false} BillOwedAtFirst(law: Law, r: Recorder, terms: map<string, Terms>)
    requires Fits(law, terms) && Honest(r, terms) && (law.Daily? || law.Events? || law.Cents?)
    ensures Correction(law, Owed(r)) == 0
  {
    DeltaSplits(r);
    if law.Cents? {
      assert law.price * 0 == 0;
    }
  }

  // ----- what a payment does to the readings ----------------------------------------

  lemma {:induction false} TokenTotalPut(s: Stats, key: string, t: TokenState, f: Field)
    ensures TokenTotal(s.(tokens := s.tokens[key := t]), f)
         == TokenTotal(s, f) - (if key in s.tokens then Get(s.tokens[key].metrics, f) else 0) + Get(t.metrics, f)
  {
    assert TokenValues(s.(tokens := s.tokens[key := t]), f) == TokenValues(s, f)[key := Get(t.metrics, f)];
    TotalUpdate(TokenValues(s, f), key, Get(t.metrics, f));
  }

  function PutChain(s: Stats, key: string, chain: string, m: Metrics): Stats
    requires key in s.tokens
  {
    s.(tokens := s.tokens[key := s.tokens[key].(chains := s.tokens[key].chains[chain := m])])
  }

  lemma {:induction false} ChainTotalPut(s: Stats, key: string, chain: string, m: Metrics, f: Field)
    requires key in s.tokens
    ensures ChainTotal(PutChain(s, key, chain, m), key, f)
         == ChainTotal(s, key, f) - Get(Live(s, OfChain(key, chain)), f) + Get(m, f)
  {
    var before := ChainValues(s.tokens[key], f);
    assert ChainValues(PutChain(s, key, chain, m).tokens[key], f) == before[chain := Get(m, f)];
    TotalUpdate(before, chain, Get(m, f));
  }

  lemma {:induction false} SameChains(s: Stats, u: Stats, key: string, f: Field)
    requires (key in s.tokens) == (key in u.tokens)
    requires key in s.tokens ==> s.tokens[key].chains == u.tokens[key].chains
    ensures ChainTotal(s, key, f) == ChainTotal(u, key, f)
  {
  }

  lemma {:induction false} DailyTotalAdd(daily: map<string, int>, key: string, day: string, n: int, of: string)
    requires |day| == RateLimiter.DAY_LENGTH
    ensures DailyTotal(AddDaily(daily, key, day, n), of) == DailyTotal(daily, of) + (if key == of then n else 0)
  {
    var k := RateLimiter.DailyKey(key, day);
    assert TokenOf(k) == key;
    var before, after := DailyValues(daily, of), AddDaily(daily, key, day, n);
    if key == of {
      assert DailyValues(after, of) == before[k := after[k]];
      TotalUpdate(before, k, after[k]);
    } else {
      assert DailyValues(after, of) == before;
    }
  }

  lemma {:induction false} EventsAdd(events: seq<Event>, e: Event, key: string)
    ensures EventUnits(events + [e], key) == EventUnits(events, key) + (if e.tokenKey == key then e.successN else 0)
    ensures EventCents(events + [e], key) == EventCents(events, key) + (if e.tokenKey == key then e.amountCents else 0)
  {
    assert (events + [e])[..|events|] == events;
  }

  /** A gap moves by as much for what is counted as for what is owed. */
  lemma {:induction false} GapMoves(g: Gap, m: Metrics, o: Metrics, f: Field, n: int)
    ensures GapOf(g, Add(m, f, n)) + GapOf(g, Add(o, f, -n)) == GapOf(g, m) + GapOf(g, o)
  {
  }

  lemma {:induction false} PartsMove(h: Field, exact: bool, m: Metrics, o: Metrics, f: Field, n: int)
    ensures AboveTokens(h, exact, Add(m, f, n)) + AboveTokens(h, exact, Add(o, f, -n))
         == AboveTokens(h, exact, m) + AboveTokens(h, exact, o)
    ensures AboveChains(h, exact, Add(m, f, n)) + AboveChains(h, exact, Add(o, f, -n))
         == AboveChains(h, exact, m) + AboveChains(h, exact, o)
  {
  }

  /** Debts are never negative, and every field is paid globally first, then to the token,
      then to the chain. */
  ghost predicate Orderly(d: Debt) {
    && (forall f: Field :: 0 <= Get(d.global, f) && 0 <= Get(d.token, f) && 0 <= Get(d.chain, f))
    && (HasToken(d.r) ==> forall f: Field :: Get(d.global, f) <= Get(d.token, f))
    && (HasChain(d.r) ==> forall f: Field :: Get(d.token, f) <= Get(d.chain, f))
    && (d.daily == None || d.daily == BillOf(d.r))
    && (d.event == None || d.event == BillOf(d.r))
  }

  /** The payment leaves the law as it was: an exact one exactly, the others at least. */
  ghost predicate Settles(law: Law, b: Books, d: Debt, b': Books, d': Debt) {
    var before, after := Balance(law, b) + Correction(law, d), Balance(law, b') + Correction(law, d');
    if Exact(law) then after == before else after >= before
  }

  /** Either the target is not concerned, or what is taken off the debt is counted. */
  lemma {:induction false} TargetSettles(law: Law, b: Books, d: Debt, b': Books, d': Debt, f: Field, n: int, hit: bool)
    requires law.OnTarget?
    requires !hit ==> Live(b'.stats, law.t) == Live(b.stats, law.t) && OwedTo(d', law.t) == OwedTo(d, law.t)
    requires hit ==> Live(b'.stats, law.t) == Add(Live(b.stats, law.t), f, n)
    requires hit ==> OwedTo(d', law.t) == Add(OwedTo(d, law.t), f, -n)
    ensures Settles(law, b, d, b', d')
  {
    if hit {
      GapMoves(law.gap, Live(b.stats, law.t), OwedTo(d, law.t), f, n);
    }
  }

  /** A token's counters move by what its debt moves by, or not at all. */
  ghost predicate TokenMoves(b: Books, d: Debt, b': Books, d': Debt, key: string, f: Field, n: int) {
    && d'.r == d.r && b'.daily == b.daily && b'.events == b.events && d'.daily == d.daily && d'.event == d.event
    && var hit := HasToken(d.r) && d.Key() == key;
       if hit then
         Live(b'.stats, OfToken(key)) == Add(Live(b.stats, OfToken(key)), f, n) && d'.token == Add(d.token, f, -n)
       else Live(b'.stats, OfToken(key)) == Live(b.stats, OfToken(key))
  }

  lemma {:induction false} Multiplied(price: int, x: int, n: int)
    ensures price * (x + n) == price * x + price * n
    ensures price * (x - n) == price * x - price * n
  {
  }

  lemma {:induction false} CentsSettle(law: Law, b: Books, d: Debt, b': Books, d': Debt, f: Field, n: int)
    requires law.Cents? && TokenMoves(b, d, b', d', law.key, f, n)
    ensures Settles(law, b, d, b', d')
  {
    Multiplied(law.price, Get(Live(b.stats, OfToken(law.key)), BillableCalls), n);
    Multiplied(law.price, Get(OwedTo(d, OfToken(law.key)), BillableCalls), n);
  }

  lemma {:induction false} UnitsSettle(law: Law, b: Books, d: Debt, b': Books, d': Debt, f: Field, n: int)
    requires (law.Daily? || law.Events?) && TokenMoves(b, d, b', d', law.key, f, n)
    ensures Settles(law, b, d, b', d')
  {
  }

  lemma {:induction false} GlobalLevelSettles(law: Law, b: Books, d: Debt, b': Books, d': Debt, f: Field, n: int)
    requires law.GlobalLevel? && n >= 0 && d'.r == d.r && d'.token == d.token
    requires TokenTotal(b'.stats, law.f) == TokenTotal(b.stats, law.f)
    requires b'.stats.global == Add(b.stats.global, f, n) && d'.global == Add(d.global, f, -n)
    ensures Settles(law, b, d, b', d')
  {
    PartsMove(law.f, law.exact, b.stats.global, d.global, f, n);
  }

  lemma {:induction false} TokenLevelSettles(law: Law, b: Books, d: Debt, b': Books, d': Debt, f: Field, n: int)
    requires law.TokenLevel? && n >= 0 && d'.chain == d.chain && TokenMoves(b, d, b', d', law.key, f, n)
    requires ChainTotal(b'.stats, law.key, law.f) == ChainTotal(b.stats, law.key, law.f)
    ensures Settles(law, b, d, b', d')
  {
    PartsMove(law.f, law.exact, Live(b.stats, OfToken(law.key)), d.token, f, n);
  }

  lemma {:induction false} NothingMoves(law: Law, b: Books, d: Debt, b': Books, d': Debt)
    requires Balance(law, b') == Balance(law, b) && Correction(law, d') == Correction(law, d)
    ensures Settles(law, b, d, b', d')
  {
  }

  lemma {:induction false} GlobalSettles(law: Law, b: Books, d: Debt, b': Books, d': Debt, f: Field)
    requires Orderly(d) && d' == d.(global := Add(d.global, f, -Get(d.global, f)))
    requires b' == b.(stats := AddGlobal(b.stats, f, Get(d.global, f)))
    ensures Settles(law, b, d, b', d')
  {
    var n := Get(d.global, f);
    assert n >= 0;
    assert b'.stats.tokens == b.stats.tokens && d'.r == d.r && d'.token == d.token;
    if law.OnTarget? {
      TargetSettles(law, b, d, b', d', f, n, law.t.Everyone?);
    } else if law.GlobalLevel? {
      assert TokenTotal(b'.stats, law.f) == TokenTotal(b.stats, law.f);
      hide Orderly, Settles, Total;
      GlobalLevelSettles(law, b, d, b', d', f, n);
    } else {
      hide Orderly, AddGlobal, Add, Total;
      TokensStaySettled(law, b, d, b', d');
    }
  }

  lemma {:induction false} TokensStaySettled(law: Law, b: Books, d: Debt, b': Books, d': Debt)
    requires !law.OnTarget? && !law.GlobalLevel? && d' == d.(global := d'.global)
    requires b' == b.(stats := b'.stats) && b'.stats.tokens == b.stats.tokens
    ensures Settles(law, b, d, b', d')
  {
    NothingMoves(law, b, d, b', d');
  }

  lemma {:induction false} TokenPaymentMoves(b: Books, d: Debt, b': Books, d': Debt, f: Field, key: string)
    requires HasToken(d.r) && d.Key() in b.stats.tokens && d' == d.(token := Add(d.token, f, -Get(d.token, f)))
    requires b' == b.(stats := AddToken(b.stats, d.Key(), f, Get(d.token, f)))
    ensures TokenMoves(b, d, b', d', key, f, Get(d.token, f))
    ensures forall h: Field :: ChainTotal(b'.stats, key, h) == ChainTotal(b.stats, key, h)
    ensures forall k, c :: Live(b'.stats, OfChain(k, c)) == Live(b.stats, OfChain(k, c))
  {
    forall h: Field
      ensures ChainTotal(b'.stats, key, h) == ChainTotal(b.stats, key, h)
    {
      SameChains(b.stats, b'.stats, key, h);
    }
  }

  lemma {:induction false} TokenSettles(law: Law, b: Books, d: Debt, b': Books, d': Debt, f: Field)
    requires Orderly(d) && HasToken(d.r) && d.Key() in b.stats.tokens
             && d' == d.(token := Add(d.token, f, -Get(d.token, f)))
    requires b' == b.(stats := AddToken(b.stats, d.Key(), f, Get(d.token, f)))
    ensures Settles(law, b, d, b', d')
  {
    var n := Get(d.token, f);
    match law {
      case OnTarget(t, gap) =>
        if t.OfToken? { TokenPaymentMoves(b, d, b', d', f, t.key); }
        if t.OfChain? { TokenPaymentMoves(b, d, b', d', f, t.key); }
        TargetSettles(law, b, d, b', d', f, n, t.OfToken? && t.key == d.Key());
      case GlobalLevel(h, exact) => TokenTotalPut(b.stats, d.Key(), b'.stats.tokens[d.Key()], h);
      case TokenLevel(key, h, _) =>
        TokenPaymentMoves(b, d, b', d', f, key);
        TokenLevelSettles(law, b, d, b', d', f, n);
      case Daily(key) => TokenPaymentMoves(b, d, b', d', f, key); UnitsSettle(law, b, d, b', d', f, n);
      case Events(key) => TokenPaymentMoves(b, d, b', d', f, key); UnitsSettle(law, b, d, b', d', f, n);
      case Cents(key, _) => TokenPaymentMoves(b, d, b', d', f, key); CentsSettle(law, b, d, b', d', f, n);
    }
  }

  /** A step that touches the counters of one chain only. */
  ghost predicate OnlyChain(s: Stats, u: Stats, key: string, chain: string) {
    && u.global == s.global
    && (forall k :: Live(u, OfToken(k)) == Live(s, OfToken(k)))
    && (forall k, c :: (k, c) != (key, chain) ==> Live(u, OfChain(k, c)) == Live(s, OfChain(k, c)))
    && (forall h: Field :: TokenTotal(u, h) == TokenTotal(s, h))
    && (forall k, h: Field :: k != key ==> ChainTotal(u, k, h) == ChainTotal(s, k, h))
  }

  lemma {:induction false} PutChainTouches(s: Stats, key: string, chain: string, m: Metrics)
    requires key in s.tokens
    ensures OnlyChain(s, PutChain(s, key, chain, m), key, chain)
    ensures Live(PutChain(s, key, chain, m), OfChain(key, chain)) == m
  {
    var u := PutChain(s, key, chain, m);
    forall h: Field
      ensures TokenTotal(u, h) == TokenTotal(s, h)
    {
      TokenTotalPut(s, key, u.tokens[key], h);
    }
    forall k, h: Field | k != key
      ensures ChainTotal(u, k, h) == ChainTotal(s, k, h)
    {
      SameChains(s, u, k, h);
    }
  }

  lemma {:induction false} ChainSettles(law: Law, b: Books, d: Debt, b': Books, d': Debt, f: Field)
    requires HasChain(d.r) && d.Key() in b.stats.tokens && d.Chain() in b.stats.tokens[d.Key()].chains
    requires d' == d.(chain := Add(d.chain, f, -Get(d.chain, f)))
    requires b' == b.(stats := AddChain(b.stats, d.Key(), d.Chain(), f, Get(d.chain, f)))
    ensures Settles(law, b, d, b', d')
  {
    var n, k, c := Get(d.chain, f), d.Key(), d.Chain();
    var m := Add(b.stats.tokens[k].chains[c], f, n);
    assert b'.stats == PutChain(b.stats, k, c, m);
    PutChainTouches(b.stats, k, c, m);
    if law.OnTarget? {
      TargetSettles(law, b, d, b', d', f, n, law.t == OfChain(k, c));
    } else if law.TokenLevel? && law.key == k {
      ChainTotalPut(b.stats, k, c, m, law.f);
    } else {
      hide PutChain, AddChain, Add, Total;
      ElsewhereSettles(law, b, d, b', d', k, c);
    }
  }

  lemma {:induction false} ElsewhereSettles(law: Law, b: Books, d: Debt, b': Books, d': Debt, k: string, c: string)
    requires OnlyChain(b.stats, b'.stats, k, c) && b'.daily == b.daily && b'.events == b.events
    requires !law.OnTarget? && (law.TokenLevel? ==> law.key != k) && k == d.Key() && d' == d.(chain := d'.chain)
    ensures Settles(law, b, d, b', d')
  {
    NothingMoves(law, b, d, b', d');
  }

  /** No counter has changed, and no sum of counters. */
  ghost predicate SameCounters(s: Stats, u: Stats) {
    && (forall t: Target :: Live(u, t) == Live(s, t))
    && (forall f: Field :: TokenTotal(u, f) == TokenTotal(s, f))
    && (forall key, f: Field :: ChainTotal(u, key, f) == ChainTotal(s, key, f))
  }

  lemma {:induction false} LookupSettles(law: Law, b: Books, d: Debt, b': Books, d': Debt)
    requires b' == b.(stats := b'.stats) && SameCounters(b.stats, b'.stats)
    requires d' == d.(foundToken := d'.foundToken, foundChain := d'.foundChain)
    ensures Settles(law, b, d, b', d')
  {
    assert Live(b'.stats, Everyone) == Live(b.stats, Everyone);
    NothingMoves(law, b, d, b', d');
  }

  lemma {:induction false} EnsuredChangesNone(s: Stats, meta: Meta)
    ensures SameCounters(s, Ensured(s, meta))
  {
    var u, k := Ensured(s, meta), meta.key;
    forall f: Field ensures TokenTotal(u, f) == TokenTotal(s, f) {
      TokenTotalPut(s, k, u.tokens[k], f);
    }
    forall key, f: Field ensures ChainTotal(u, key, f) == ChainTotal(s, key, f) {
      if key == k && k !in s.tokens {
        assert ChainValues(u.tokens[k], f) == map[];
      } else {
        SameChains(s, u, key, f);
      }
    }
  }

  lemma {:induction false} EnsuredChainChangesNone(s: Stats, k: string, c: string)
    requires k in s.tokens
    ensures SameCounters(s, EnsuredChain(s, k, c))
  {
    if c !in s.tokens[k].chains {
      assert EnsuredChain(s, k, c) == PutChain(s, k, c, ZERO);
      PutChainTouches(s, k, c, ZERO);
      forall f: Field ensures ChainTotal(PutChain(s, k, c, ZERO), k, f) == ChainTotal(s, k, f) {
        ChainTotalPut(s, k, c, ZERO, f);
      }
      assert Live(s, OfChain(k, c)) == ZERO;
      hide PutChain, EnsuredChain, Total;
    } else {
      assert EnsuredChain(s, k, c) == s;
      hide Total;
    }
  }

  lemma {:induction false} FindTokenSettles(law: Law, b: Books, d: Debt)
    requires HasToken(d.r)
    ensures Settles(law, b, d, b.(stats := Ensured(b.stats, d.r.meta)), d.(foundToken := true))
  {
    hide Settles, SameCounters, Ensured, Delta;
    EnsuredChangesNone(b.stats, d.r.meta);
    LookupSettles(law, b, d, b.(stats := Ensured(b.stats, d.r.meta)), d.(foundToken := true));
  }

  lemma {:induction false} FindChainSettles(law: Law, b: Books, d: Debt)
    requires HasChain(d.r) && d.Key() in b.stats.tokens
    ensures Settles(law, b, d, b.(stats := EnsuredChain(b.stats, d.Key(), d.Chain())), d.(foundChain := true))
  {
    hide Settles, SameCounters, EnsuredChain, Delta;
    EnsuredChainChangesNone(b.stats, d.Key(), d.Chain());
    LookupSettles(law, b, d, b.(stats := EnsuredChain(b.stats, d.Key(), d.Chain())), d.(foundChain := true));
  }

  lemma {:induction false} DailySettles(law: Law, b: Books, d: Debt, b': Books)
    requires d.daily.Some? && |d.daily.value.day| == RateLimiter.DAY_LENGTH
    requires var e := d.daily.value; b' == b.(daily := AddDaily(b.daily, e.event.tokenKey, e.day, e.event.successN))
    ensures Settles(law, b, d, b', d.(daily := None))
  {
    var e, d' := d.daily.value, d.(daily := None);
    if law.Daily? {
      DailyTotalAdd(b.daily, e.event.tokenKey, e.day, e.event.successN, law.key);
      assert Balance(law, b') == Balance(law, b) - UnitsOwed(d.daily, law.key);
      assert Correction(law, d') == Correction(law, d) + UnitsOwed(d.daily, law.key);
    } else {
      NothingMoves(law, b, d, b', d');
    }
  }

  lemma {:induction false} EventSettles(law: Law, b: Books, d: Debt, b': Books)
    requires d.event.Some? && b' == b.(events := b.events + [d.event.value.event])
    ensures Settles(law, b, d, b', d.(event := None))
  {
    hide Delta, Total;
    if law.Events? || law.Cents? {
      EventsAdd(b.events, d.event.value.event, law.key);
    } else {
      NothingMoves(law, b, d, b', d.(event := None));
    }
  }

  // ----- every run ------------------------------------------------------------------

  ghost predicate Legal(steps: seq<Step>, terms: map<string, Terms>) {
    steps == [] ||
    var before, last := steps[..|steps| - 1], steps[|steps| - 1];
    && Legal(before, terms)
    && Enabled(End(before), last)
    && (last.Start? ==> Honest(last.r, terms))
  }

  /** The state after the steps. */
  ghost function End(steps: seq<Step>): (s: State)
    ensures Held(s)
  {
    if steps == [] then INIT else
    var before, last := End(steps[..|steps| - 1]), steps[|steps| - 1];
    if Enabled(before, last) then StepHolds(before, last); Apply(before, last) else before
  }

  ghost predicate Debts(s: State, terms: map<string, Terms>) {
    forall id :: id in s.debts ==> Orderly(s.debts[id]) && Honest(s.debts[id].r, terms)
  }

  lemma {:induction false} DeltaNotNegative(r: Recorder)
    ensures forall f: Field :: Get(Delta(r), f) >= 0
  {
    forall f: Field ensures Get(Delta(r), f) >= 0 { DeltaLevels(r, f); }
  }

  lemma {:induction false} PutKeepsDebts(s: State, t: State, id: nat, d: Debt, terms: map<string, Terms>)
    requires Debts(s, terms) && Orderly(d) && Honest(d.r, terms) && t.debts == s.debts[id := d]
    ensures Debts(t, terms)
  {
    hide Orderly, Honest;
  }

  lemma {:induction false} StepKeepsDebts(s: State, step: Step, terms: map<string, Terms>)
    requires Held(s) && Debts(s, terms) && Enabled(s, step) && (step.Start? ==> Honest(step.r, terms))
    ensures Debts(Apply(s, step), terms)
  {
    hide Honest, Held, Orderly;
    match step {
      case Start(id, r) => OwedIsOrderly(r); PutKeepsDebts(s, Apply(s, step), id, Owed(r), terms);
      case FindToken(_) => LookupKeepsDebts(s, step, terms);
      case FindChain(_) => LookupKeepsDebts(s, step, terms);
      case PayGlobal(_, _) => PaymentKeepsDebts(s, step, terms);
      case PayToken(_, _) => PaymentKeepsDebts(s, step, terms);
      case PayChain(_, _) => PaymentKeepsDebts(s, step, terms);
      case PayDaily(_) => BillingKeepsDebts(s, step, terms);
      case PayEvent(_) => BillingKeepsDebts(s, step, terms);
      case _ =>
    }
  }

  lemma {:induction false} LookupKeepsDebts(s: State, step: Step, terms: map<string, Terms>)
    requires Held(s) && Debts(s, terms) && Enabled(s, step) && (step.FindToken? || step.FindChain?)
    ensures Debts(Apply(s, step), terms)
  {
    hide Honest, Held;
    var d := s.debts[step.id];
    PutKeepsDebts(s, Apply(s, step), step.id,
                  if step.FindToken? then d.(foundToken := true) else d.(foundChain := true), terms);
  }

  lemma {:induction false} BillingKeepsDebts(s: State, step: Step, terms: map<string, Terms>)
    requires Held(s) && Debts(s, terms) && Enabled(s, step) && (step.PayDaily? || step.PayEvent?)
    ensures Debts(Apply(s, step), terms)
  {
    hide Honest, Held;
    var d := s.debts[step.id];
    PutKeepsDebts(s, Apply(s, step), step.id, if step.PayDaily? then d.(daily := None) else d.(event := None), terms);
  }

  lemma {:induction false} PaymentKeepsDebts(s: State, step: Step, terms: map<string, Terms>)
    requires Held(s) && Debts(s, terms) && Enabled(s, step) && (step.PayGlobal? || step.PayToken? || step.PayChain?)
    ensures Debts(Apply(s, step), terms)
  {
    var d := s.debts[step.id];
    assert Orderly(d) && Honest(d.r, terms);
    if step.PayGlobal? { GlobalKeepsOrder(d, step.f); }
    else if step.PayToken? { TokenKeepsOrder(d, step.f); }
    else { ChainKeepsOrder(d, step.f); }
    hide Honest, Held, Orderly;
    PutKeepsDebts(s, Apply(s, step), step.id, Apply(s, step).debts[step.id], terms);
  }

  lemma {:induction false} OwedIsOrderly(r: Recorder)
    ensures Orderly(Owed(r))
  {
    DeltaNotNegative(r);
  }

  lemma {:induction false} Emptied(m: Metrics, f: Field)
    ensures forall g: Field :: Get(Add(m, f, -Get(m, f)), g) == if g == f then 0 else Get(m, g)
  {
  }

  lemma {:induction false} GlobalKeepsOrder(d: Debt, f: Field)
    requires Orderly(d)
    ensures Orderly(d.(global := Add(d.global, f, -Get(d.global, f))))
  {
    Emptied(d.global, f);
    hide Add, Get;
    var d' := d.(global := Add(d.global, f, -Get(d.global, f)));
    forall g: Field
      ensures 0 <= Get(d'.global, g) && 0 <= Get(d'.token, g) && 0 <= Get(d'.chain, g)
      ensures HasToken(d.r) ==> Get(d'.global, g) <= Get(d'.token, g)
      ensures HasChain(d.r) ==> Get(d'.token, g) <= Get(d'.chain, g)
    {
      assert 0 <= Get(d.global, g) && 0 <= Get(d.token, g) && 0 <= Get(d.chain, g);
      assert Get(d'.global, g) == if g == f then 0 else Get(d.global, g);
    }
  }

  lemma {:induction false} TokenKeepsOrder(d: Debt, f: Field)
    requires Orderly(d) && CanPayToken(d, f)
    ensures Orderly(d.(token := Add(d.token, f, -Get(d.token, f))))
  {
    Emptied(d.token, f);
    hide Add, Get;
    var d' := d.(token := Add(d.token, f, -Get(d.token, f)));
    forall g: Field
      ensures 0 <= Get(d'.global, g) && 0 <= Get(d'.token, g) && 0 <= Get(d'.chain, g)
      ensures HasToken(d.r) ==> Get(d'.global, g) <= Get(d'.token, g)
      ensures HasChain(d.r) ==> Get(d'.token, g) <= Get(d'.chain, g)
    {
      assert 0 <= Get(d.global, g) && 0 <= Get(d.token, g) && 0 <= Get(d.chain, g);
      assert Get(d'.token, g) == if g == f then 0 else Get(d.token, g);
    }
  }

  lemma {:induction false} ChainKeepsOrder(d: Debt, f: Field)
    requires Orderly(d) && CanPayChain(d, f)
    ensures Orderly(d.(chain := Add(d.chain, f, -Get(d.chain, f))))
  {
    Emptied(d.chain, f);
    hide Add, Get;
    var d' := d.(chain := Add(d.chain, f, -Get(d.chain, f)));
    forall g: Field
      ensures 0 <= Get(d'.global, g) && 0 <= Get(d'.token, g) && 0 <= Get(d'.chain, g)
      ensures HasToken(d.r) ==> Get(d'.global, g) <= Get(d'.token, g)
      ensures HasChain(d.r) ==> Get(d'.token, g) <= Get(d'.chain, g)
    {
      assert 0 <= Get(d.global, g) && 0 <= Get(d.token, g) && 0 <= Get(d.chain, g);
      assert Get(d'.chain, g) == if g == f then 0 else Get(d.chain, g);
    }
  }

  lemma {:induction false} CorrectionsPut(law: Law, debts: map<nat, Debt>, id: nat, d: Debt)
    ensures Corrections(law, debts[id := d])
         == Corrections(law, debts) - (if id in debts then Correction(law, debts[id]) else 0) + Correction(law, d)
  {
    assert CorrectionValues(law, debts[id := d]) == CorrectionValues(law, debts)[id := Correction(law, d)];
    TotalUpdate(CorrectionValues(law, debts), id, Correction(law, d));
  }

  lemma {:induction false} CorrectionsRemove(law: Law, debts: map<nat, Debt>, id: nat)
    requires id in debts
    ensures Corrections(law, debts - {id}) == Corrections(law, debts) - Correction(law, debts[id])
  {
    assert CorrectionValues(law, debts - {id}) == CorrectionValues(law, debts) - {id};
    TotalRemove(CorrectionValues(law, debts), id);
  }

  lemma {:induction false} PaidOwesNothing(law: Law, d: Debt)
    requires d.Paid()
    ensures Correction(law, d) == 0
  {
    if law.Cents? {
      assert law.price * 0 == 0;
    }
  }

  /** One step of a recorder settles the law. */
  lemma {:induction false} PaymentSettles(law: Law, s: State, step: Step, terms: map<string, Terms>)
    requires Held(s) && Debts(s, terms) && Enabled(s, step)
    requires step.FindToken? || step.FindChain? || step.PayGlobal? || step.PayToken? || step.PayChain?
             || step.PayDaily? || step.PayEvent?
    ensures var t := Apply(s, step);
            && step.id in s.debts && step.id in t.debts && t.debts == s.debts[step.id := t.debts[step.id]]
            && Settles(law, s.books, s.debts[step.id], t.books, t.debts[step.id])
  {
    hide Settles, Delta, Total;
    var b, d, t := s.books, s.debts[step.id], Apply(s, step);
    match step {
      case FindToken(id) => FindTokenSettles(law, b, d);
      case FindChain(id) => FindChainSettles(law, b, d);
      case PayGlobal(id, f) => GlobalSettles(law, b, d, t.books, t.debts[id], f);
      case PayToken(id, f) => TokenSettles(law, b, d, t.books, t.debts[id], f);
      case PayChain(id, f) => ChainSettles(law, b, d, t.books, t.debts[id], f);
      case PayDaily(id) =>
        assert d.daily == BillOf(d.r);
        DailySettles(law, b, d, t.books);
      case PayEvent(id) => EventSettles(law, b, d, t.books);
    }
  }

  lemma {:induction false} StepKeepsLaw(law: Law, s: State, step: Step, terms: map<string, Terms>)
    requires Held(s) && Debts(s, terms) && Enabled(s, step) && (step.Start? ==> Honest(step.r, terms))
    requires Fits(law, terms) && Holds(law, s)
    ensures Holds(law, Apply(s, step))
  {
    match step {
      case Start(id, r) =>
        CorrectionsPut(law, s.debts, id, Owed(r));
        OwedAtFirst(law, r, terms);
      case Finish(id) =>
        CorrectionsRemove(law, s.debts, id);
        PaidOwesNothing(law, s.debts[id]);
      case Lock(_) =>
      case LoadToken(_, _, _) =>
      case LoadGlobal(_, _) =>
      case Unlock(_) =>
      case _ =>
        PaymentSettles(law, s, step, terms);
        CorrectionsPut(law, s.debts, step.id, Apply(s, step).debts[step.id]);
    }
  }

  lemma {:induction false} EmptyKeepsLaw(law: Law)
    ensures Holds(law, INIT)
  {
    assert CorrectionValues(law, INIT.debts) == map[];
    match law {
      case OnTarget(t, gap) =>
      case GlobalLevel(f, _) => assert TokenValues(EMPTY.stats, f) == map[];
      case TokenLevel(_, _, _) =>
      case Daily(key) => assert DailyValues(EMPTY.daily, key) == map[];
      case Events(_) =>
      case Cents(key, price) => assert price * 0 == 0;
    }
  }

  lemma {:induction false} DebtsStayOrderly(steps: seq<Step>, terms: map<string, Terms>)
    requires Legal(steps, terms)
    ensures Debts(End(steps), terms)
    decreases |steps|
  {
    hide Orderly, Honest;
    if steps != [] {
      var before, last := steps[..|steps| - 1], steps[|steps| - 1];
      DebtsStayOrderly(before, terms);
      hide Debts, Apply, Enabled;
      StepKeepsDebts(End(before), last, terms);
    }
  }

  /** Every sound law holds in every reachable state, whatever the interleaving. */
  lemma {:induction false} LawsHold(law: Law, steps: seq<Step>, terms: map<string, Terms>)
    requires Legal(steps, terms) && Fits(law, terms)
    ensures Holds(law, End(steps)) && Debts(End(steps), terms)
    decreases |steps|
  {
    DebtsStayOrderly(steps, terms);
    if steps == [] {
      EmptyKeepsLaw(law);
    } else {
      var before, last := steps[..|steps| - 1], steps[|steps| - 1];
      LawsHold(law, before, terms);
      hide Debts, Holds, Fits, Apply, Enabled;
      StepKeepsLaw(law, End(before), last, terms);
    }
  }

  // ----- what follows for the live counters -----------------------------------------

  /** At any moment, whatever is in flight, the global counters cover the tokens, and each
      token covers its chains. */
  lemma {:induction false} LiveCountersCover(steps: seq<Step>, terms: map<string, Terms>, key: string, f: Field)
    requires Legal(steps, terms)
    ensures var s := End(steps).books.stats;
            Get(s.global, f) >= TokenTotal(s, f) && Get(Live(s, OfToken(key)), f) >= ChainTotal(s, key, f)
  {
    hide Legal, Debts, Balance, Correction;
    NotBelow(GlobalLevel(f, false), steps, terms);
    NotBelow(TokenLevel(key, f, false), steps, terms);
    LevelsAreBalances(End(steps).books, key, f);
  }

  lemma {:induction false} LevelsAreBalances(b: Books, key: string, f: Field)
    ensures Balance(GlobalLevel(f, false), b) == Get(b.stats.global, f) - TokenTotal(b.stats, f)
    ensures Balance(TokenLevel(key, f, false), b) == Get(Live(b.stats, OfToken(key)), f) - ChainTotal(b.stats, key, f)
  {
    hide Total;
  }

  /** What is owed never tips a level over. */
  lemma {:induction false} NotBelow(law: Law, steps: seq<Step>, terms: map<string, Terms>)
    requires Legal(steps, terms) && (law.GlobalLevel? || law.TokenLevel?) && !law.exact
    ensures Balance(law, End(steps).books) >= 0
  {
    var s := End(steps);
    LawsHold(law, steps, terms);
    forall id | id in s.debts
      ensures Correction(law, s.debts[id]) <= 0
    {
      OwesLevels(law, s.debts[id]);
    }
    hide Legal, Honest, Balance, Correction, Orderly;
    TotalNotPositive(CorrectionValues(law, s.debts));
  }

  lemma {:induction false} OwesLevels(law: Law, d: Debt)
    requires Orderly(d) && (law.GlobalLevel? || law.TokenLevel?) && !law.exact
    ensures Correction(law, d) <= 0
  {
    hide Delta;
  }

  lemma {:induction false} HoldsAtRest(law: Law, steps: seq<Step>, terms: map<string, Terms>)
    requires Legal(steps, terms) && Fits(law, terms) && End(steps).debts == map[]
    ensures if Exact(law) then Balance(law, End(steps).books) == 0 else Balance(law, End(steps).books) >= 0
  {
    LawsHold(law, steps, terms);
    assert CorrectionValues(law, End(steps).debts) == map[];
  }

  /** Once no recorder is in flight, every level splits its requests and its successes. */
  lemma {:induction false} CountersSplitAtRest(steps: seq<Step>, terms: map<string, Terms>, t: Target)
    requires Legal(steps, terms) && End(steps).debts == map[]
    ensures var m := Live(End(steps).books.stats, t);
            && Get(m, Requests) == Get(m, Proxied)
                 + (if t.OfChain? then 0 else Get(m, MethodDenied) + Get(m, RateLimited))
                 + (if t.Everyone? then Get(m, AuthFailed) else 0)
            && Get(m, SuccessCalls) == Get(m, BillableCalls) + Get(m, FreeCalls)
            && Get(m, UpstreamErrors) <= Get(m, Proxied)
  {
    HoldsAtRest(OnTarget(t, Refusals), steps, terms);
    HoldsAtRest(OnTarget(t, Unsplit), steps, terms);
    HoldsAtRest(OnTarget(t, Undelivered), steps, terms);
    if !t.Everyone? {
      HoldsAtRest(OnTarget(t, Zero(AuthFailed)), steps, terms);
    }
    if t.OfChain? {
      HoldsAtRest(OnTarget(t, Zero(MethodDenied)), steps, terms);
      HoldsAtRest(OnTarget(t, Zero(RateLimited)), steps, terms);
    }
  }

  /** And the levels agree: the global surplus are failed logins and rejected domains, the
      surplus of a token over its chains are its refusals. */
  lemma {:induction false} LevelsAgreeAtRest(steps: seq<Step>, terms: map<string, Terms>, key: string, f: Field)
    requires Legal(steps, terms) && End(steps).debts == map[]
    ensures var s := End(steps).books.stats;
            && (f != AuthFailed && f != DomainRejected ==>
                  Get(s.global, f) == TokenTotal(s, f) + (if f == Requests then Get(s.global, AuthFailed) else 0))
            && (f != MethodDenied && f != RateLimited ==>
                  var m := Live(s, OfToken(key));
                  Get(m, f) == ChainTotal(s, key, f)
                    + (if f == Requests then Get(m, MethodDenied) + Get(m, RateLimited) else 0))
  {
    if f != AuthFailed && f != DomainRejected {
      HoldsAtRest(GlobalLevel(f, true), steps, terms);
    }
    if f != MethodDenied && f != RateLimited {
      HoldsAtRest(TokenLevel(key, f, true), steps, terms);
    }
  }

  /** Over any mix of traffic a token's successes are its daily counters and its billed
      units, and its billed cents are its price for each billable call: nothing, if free. */
  lemma {:induction false} AccountsAgreeAtRest(steps: seq<Step>, terms: map<string, Terms>, key: string)
    requires Legal(steps, terms) && End(steps).debts == map[]
    requires key in terms && terms[key].price >= 0
    ensures var b := End(steps).books;
            var m := Live(b.stats, OfToken(key));
            && Get(m, SuccessCalls) == DailyTotal(b.daily, key) == EventUnits(b.events, key)
            && EventCents(b.events, key) == terms[key].price * Get(m, BillableCalls)
            && (terms[key].free ==> Get(m, BillableCalls) == 0 && EventCents(b.events, key) == 0)
  {
    HoldsAtRest(Daily(key), steps, terms);
    HoldsAtRest(Events(key), steps, terms);
    HoldsAtRest(Cents(key, terms[key].price), steps, terms);
    if terms[key].free {
      HoldsAtRest(Cents(key, 0), steps, terms);
      HoldsAtRest(Cents(key, 1), steps, terms);
    }
  }

  // ----- snapshots ------------------------------------------------------------------

  function SeenValues(keys: set<string>, seen: map<(string, Field), int>, f: Field): map<string, int> {
    map key | key in keys && (key, f) in seen :: seen[(key, f)]
  }

  ghost predicate Complete(keys: set<string>, seen: map<(string, Field), int>) {
    forall key, f: Field :: key in keys ==> (key, f) in seen
  }

  /** What the reader has seen of a token is not more than there is now; what it has seen of
      a total, which it loads last, is not less than the sum over the tokens it has seen. */
  ghost predicate Faithful(s: Stats, r: Reader) {
    && (forall key, f: Field :: (key, f) in r.seen ==>
        key in s.tokens && r.seen[(key, f)] <= Get(s.tokens[key].metrics, f))
    && (forall f: Field :: f in r.total ==>
          Complete(s.tokens.Keys, r.seen) && r.total[f] >= Total(SeenValues(s.tokens.Keys, r.seen, f)))
  }

  ghost predicate ReaderInv(s: State) {
    forall rid :: rid in s.readers ==> Faithful(s.books.stats, s.readers[rid])
  }

  /** Every token is in the overview with all its fields, and every total covers their sum. */
  ghost predicate Covered(o: Overview) {
    && Complete(o.keys, o.tokens)
    && forall f: Field :: f in o.total && o.total[f] >= Total(SeenValues(o.keys, o.tokens, f))
  }

  ghost predicate Grown(s: Stats, u: Stats) {
    && u.tokens.Keys == s.tokens.Keys
    && forall key, f: Field :: key in s.tokens ==>
         Get(s.tokens[key].metrics, f) <= Get(u.tokens[key].metrics, f)
  }

  lemma {:induction false} AddTokenGrows(s: Stats, key: string, f: Field, n: int)
    requires key in s.tokens && n >= 0
    ensures Grown(s, AddToken(s, key, f, n))
  {
  }

  lemma {:induction false} ChainsLeaveTokens(s: Stats, key: string, c: string, f: Field, n: int)
    requires key in s.tokens
    ensures Grown(s, EnsuredChain(s, key, c)) && (c in s.tokens[key].chains ==> Grown(s, AddChain(s, key, c, f, n)))
  {
  }

  lemma {:induction false} TokensOnlyGrow(s: State, step: Step)
    requires Held(s) && Enabled(s, step) && s.readers != map[] && forall id :: id in s.debts ==> Orderly(s.debts[id])
    ensures Grown(s.books.stats, Apply(s, step).books.stats)
  {
    if step.PayToken? {
      var d := s.debts[step.id];
      assert Orderly(d);
      AddTokenGrows(s.books.stats, d.Key(), step.f, Get(d.token, step.f));
      hide Grown, AddToken, Orderly;
    } else if step.FindChain? {
      ChainsLeaveTokens(s.books.stats, s.debts[step.id].Key(), s.debts[step.id].Chain(), Requests, 0);
      hide Grown, EnsuredChain, Orderly;
    } else if step.PayChain? {
      var d := s.debts[step.id];
      ChainsLeaveTokens(s.books.stats, d.Key(), d.Chain(), step.f, Get(d.chain, step.f));
      hide Grown, AddChain, Orderly;
    } else {
      hide Orderly, Held, Add;
    }
  }

  lemma {:induction false} StaysFaithful(s: Stats, u: Stats, r: Reader)
    requires Grown(s, u) && Faithful(s, r)
    ensures Faithful(u, r)
  {
    hide Total, SeenValues;
  }

  lemma {:induction false} TokenLoadIsFaithful(s: Stats, r: Reader, key: string, f: Field)
    requires Faithful(s, r) && key in s.tokens && (key, f) !in r.seen
    ensures Faithful(s, r.(seen := r.seen[(key, f) := Get(s.tokens[key].metrics, f)]))
  {
    assert forall g: Field :: g !in r.total;
  }

  lemma {:induction false} TotalLoadIsFaithful(s: Stats, r: Reader, f: Field)
    requires Faithful(s, r) && Complete(s.tokens.Keys, r.seen) && Get(s.global, f) >= TokenTotal(s, f)
    ensures Faithful(s, r.(total := r.total[f := Get(s.global, f)]))
  {
    hide Total;
    TotalMonotone(SeenValues(s.tokens.Keys, r.seen, f), TokenValues(s, f));
  }

  lemma {:induction false} StepKeepsReaders(s: State, step: Step)
    requires Held(s) && Enabled(s, step) && ReaderInv(s) && forall id :: id in s.debts ==> Orderly(s.debts[id])
    requires step.LoadGlobal? ==> Get(s.books.stats.global, step.f) >= TokenTotal(s.books.stats, step.f)
    ensures ReaderInv(Apply(s, step))
  {
    hide Faithful, Grown, Held, Orderly;
    match step {
      case Lock(rid) => FreshIsFaithful(s.books.stats);
      case LoadToken(rid, key, f) => TokenLoadIsFaithful(s.books.stats, s.readers[rid], key, f);
      case LoadGlobal(rid, f) => TotalLoadIsFaithful(s.books.stats, s.readers[rid], f);
      case Unlock(_) =>
      case _ => OthersKeepReaders(s, step);
    }
  }

  lemma {:induction false} FreshIsFaithful(s: Stats)
    ensures Faithful(s, Reader(map[], map[]))
  {
  }

  lemma {:induction false} OthersKeepReaders(s: State, step: Step)
    requires Held(s) && Enabled(s, step) && ReaderInv(s) && forall id :: id in s.debts ==> Orderly(s.debts[id])
    requires !step.Lock? && !step.LoadToken? && !step.LoadGlobal? && !step.Unlock?
    ensures ReaderInv(Apply(s, step))
  {
    hide Faithful, Grown, Held, Orderly;
    assert Apply(s, step).readers == s.readers;
    if s.readers != map[] {
      TokensOnlyGrow(s, step);
      forall rid | rid in s.readers
        ensures Faithful(Apply(s, step).books.stats, s.readers[rid])
      {
        StaysFaithful(s.books.stats, Apply(s, step).books.stats, s.readers[rid]);
      }
    }
  }

  /** In every overview that is ever returned, each total is at least the sum of the tokens,
      although it is put together from loads that other recorders and readers run between. */
  lemma {:induction false} OverviewsAreCovered(steps: seq<Step>, terms: map<string, Terms>)
    requires Legal(steps, terms)
    ensures ReaderInv(End(steps)) && forall o :: o in End(steps).overviews ==> Covered(o)
    decreases |steps|
  {
    if steps != [] {
      var before, last := steps[..|steps| - 1], steps[|steps| - 1];
      OverviewsAreCovered(before, terms);
      DebtsStayOrderly(before, terms);
      if last.LoadGlobal? {
        LiveCountersCover(before, terms, "", last.f);
      }
      hide Orderly, Honest, ReaderInv, Held, Covered, TokenTotal;
      StepKeepsReaders(End(before), last);
      if last.Unlock? {
        UnlockIsCovered(End(before), last.rid);
      } else {
        OverviewsStay(End(before), last);
      }
    }
  }

  lemma {:induction false} OverviewsStay(s: State, step: Step)
    requires Held(s) && Enabled(s, step) && !step.Unlock?
    ensures Apply(s, step).overviews == s.overviews
  {
    hide Held;
  }

  lemma {:induction false} UnlockIsCovered(s: State, rid: nat)
    requires Held(s) && ReaderInv(s) && Enabled(s, Unlock(rid))
    ensures var o := Overview(s.books.stats.tokens.Keys, s.readers[rid].seen, s.readers[rid].total);
            Apply(s, Unlock(rid)).overviews == s.overviews + [o] && Covered(o)
  {
    assert Faithful(s.books.stats, s.readers[rid]) && Requests in s.readers[rid].total;
  }
}
