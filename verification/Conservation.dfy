/** What any sequence of calls conserves, whichever handler took them: the statistics, the
    daily counters and the billing events keep saying the same, and so do the tables that
    the events end up in. */
module Conservation {
  import opened Sums
  import opened Metering
  import opened MeteringLaws
  import opened Gateway
  import Billing
  import Collector
  import Ledger
  import RateLimiter

  function BooksOf(s: Standing): Books {
    Books(s.stats, s.kept.daily, s.events)
  }

  ghost predicate Satisfied(law: Law, s: Standing) {
    if Exact(law) then Balance(law, BooksOf(s)) == 0 else Balance(law, BooksOf(s)) >= 0
  }

  lemma {:induction false} CreditedAt(before: Stats, r: Recorder, after: Stats, t: Target, f: Field)
    requires Collector.Credited(before, r, after)
    ensures Get(Live(after, t), f) == Get(Live(before, t), f) + Get(OwedTo(Owed(r), t), f)
  {
  }

  lemma {:induction false} TokensCredited(before: Stats, r: Recorder, after: Stats, f: Field)
    requires Collector.Credited(before, r, after)
    ensures TokenTotal(after, f) == TokenTotal(before, f) + Get(Owed(r).token, f)
  {
    hide Collector.Credited, Delta, Total, Owed, OwedTo;
    forall k
      ensures ValueOrZero(TokenValues(after, f), k)
                == ValueOrZero(TokenValues(before, f), k) + Get(OwedTo(Owed(r), OfToken(k)), f)
    {
      CreditedAt(before, r, after, OfToken(k), f);
    }
    hide Live, TokenValues;
    OwesOneToken(r, f);
    TotalShifts(TokenValues(after, f), TokenValues(before, f), HasToken(r), Owed(r).Key(), Get(Owed(r).token, f));
  }

  lemma {:induction false} OwesOneToken(r: Recorder, f: Field)
    ensures var d := Owed(r);
            && d.r == r && (!HasToken(r) ==> Get(d.token, f) == 0)
            && forall k :: Get(OwedTo(d, OfToken(k)), f) == if HasToken(r) && k == d.Key() then Get(d.token, f) else 0
  {
    hide Delta;
  }

  lemma {:induction false} ChainsCredited(before: Stats, r: Recorder, after: Stats, key: string, f: Field)
    requires Collector.Credited(before, r, after)
    ensures ChainTotal(after, key, f) == ChainTotal(before, key, f)
                                         + (if HasChain(r) && r.meta.key == key then Get(Owed(r).chain, f) else 0)
  {
    hide Collector.Credited, Delta, Total, Owed, OwedTo;
    forall c
      ensures ValueOrZero(ChainsOf(after, key, f), c)
           == ValueOrZero(ChainsOf(before, key, f), c) + Get(OwedTo(Owed(r), OfChain(key, c)), f)
    {
      CreditedAt(before, r, after, OfChain(key, c), f);
    }
    hide Live, ChainsOf;
    OwesOneChain(r, key, f);
    TotalShifts(ChainsOf(after, key, f), ChainsOf(before, key, f), HasChain(r) && r.meta.key == key,
                Owed(r).Chain(), Get(Owed(r).chain, f));
  }

  lemma {:induction false} OwesOneChain(r: Recorder, key: string, f: Field)
    ensures var d := Owed(r);
            && d.r == r
            && forall c :: Get(OwedTo(d, OfChain(key, c)), f)
                        == if (HasChain(r) && r.meta.key == key) && c == d.Chain() then Get(d.chain, f) else 0
  {
    hide Delta;
  }

  function ChainsOf(s: Stats, key: string, f: Field): (m: map<string, int>)
    ensures forall c :: ValueOrZero(m, c) == Get(Live(s, OfChain(key, c)), f)
    ensures Total(m) == ChainTotal(s, key, f)
  {
    if key in s.tokens then ChainValues(s.tokens[key], f) else map[]
  }

  /** `y` has grown to `x` by `more`, or, unless exact, further still. */
  predicate Grown(exact: bool, x: int, y: int, more: int) {
    if exact then x == y + more else x >= y + more
  }

  /** A call adds to every balance what it owes the law. */
  lemma {:induction false} CallAdds(law: Law, before: Standing, r: Recorder, after: Standing)
    requires Accounted(before, true, r, after) && !before.kept.redisUp
    requires BillOf(r).Some? ==> |BillOf(r).value.day| == RateLimiter.DAY_LENGTH && BillOf(r).value.event.successN > 0
    ensures Grown(Exact(law), Balance(law, BooksOf(after)), Balance(law, BooksOf(before)), Correction(law, Owed(r)))
  {
    match law {
      case OnTarget(t, gap) =>
        TargetAdds(Live(before.stats, t), OwedTo(Owed(r), t), Live(after.stats, t), gap);
      case GlobalLevel(f, exact) => GlobalLevelAdds(before.stats, r, after.stats, f, exact);
      case TokenLevel(key, f, exact) => TokenLevelAdds(before.stats, r, after.stats, key, f, exact);
      case Daily(key) => UnitsAdd(before, r, after, key);
      case Events(key) => UnitsAdd(before, r, after, key);
      case Cents(key, price) => CentsAdd(before, r, after, key, price);
    }
  }

  ghost predicate Sum(a: Metrics, b: Metrics, c: Metrics) {
    forall f: Field :: Get(c, f) == Get(a, f) + Get(b, f)
  }

  lemma {:induction false} TargetAdds(m: Metrics, o: Metrics, m': Metrics, gap: Gap)
    requires Sum(m, o, m')
    ensures GapOf(gap, m') == GapOf(gap, m) + GapOf(gap, o)
  {
  }

  lemma {:induction false} GlobalLevelAdds(before: Stats, r: Recorder, after: Stats, f: Field, exact: bool)
    requires Collector.Credited(before, r, after)
    ensures Grown(exact, AboveTokens(f, exact, after.global) - TokenTotal(after, f),
                  AboveTokens(f, exact, before.global) - TokenTotal(before, f),
                  Correction(GlobalLevel(f, exact), Owed(r)))
  {
    DeltaNotNegative(r);
    TokensCredited(before, r, after, f);
    SumAt(before, r, after, Everyone);
    hide Collector.Credited, Delta, TokenTotal;
  }

  lemma {:induction false} SumAt(before: Stats, r: Recorder, after: Stats, t: Target)
    requires Collector.Credited(before, r, after)
    ensures Sum(Live(before, t), OwedTo(Owed(r), t), Live(after, t))
  {
    forall f: Field ensures Get(Live(after, t), f) == Get(Live(before, t), f) + Get(OwedTo(Owed(r), t), f) {
      CreditedAt(before, r, after, t, f);
    }
  }

  lemma {:induction false} TokenLevelAdds(before: Stats, r: Recorder, after: Stats, key: string, f: Field, exact: bool)
    requires Collector.Credited(before, r, after)
    ensures Grown(exact, AboveChains(f, exact, Live(after, OfToken(key))) - ChainTotal(after, key, f),
                  AboveChains(f, exact, Live(before, OfToken(key))) - ChainTotal(before, key, f),
                  Correction(TokenLevel(key, f, exact), Owed(r)))
  {
    DeltaNotNegative(r);
    ChainsCredited(before, r, after, key, f);
    SumAt(before, r, after, OfToken(key));
    hide Collector.Credited, Delta, ChainTotal, Live;
  }

  lemma {:induction false} UnitsAdd(before: Standing, r: Recorder, after: Standing, key: string)
    requires Accounted(before, true, r, after) && !before.kept.redisUp
    requires BillOf(r).Some? ==> |BillOf(r).value.day| == RateLimiter.DAY_LENGTH && BillOf(r).value.event.successN > 0
    ensures Balance(Daily(key), BooksOf(after))
              == Balance(Daily(key), BooksOf(before)) + Correction(Daily(key), Owed(r))
    ensures Balance(Events(key), BooksOf(after))
              == Balance(Events(key), BooksOf(before)) + Correction(Events(key), Owed(r))
  {
    BillAdds(before, r, after, key);
    SuccessesAdd(before.stats, r, after.stats, key, SuccessCalls);
  }

  lemma {:induction false} SuccessesAdd(before: Stats, r: Recorder, after: Stats, key: string, f: Field)
    requires Collector.Credited(before, r, after)
    ensures Get(Live(after, OfToken(key)), f)
              == Get(Live(before, OfToken(key)), f) + Get(OwedTo(Owed(r), OfToken(key)), f)
  {
  }

  lemma {:induction false} BillAdds(before: Standing, r: Recorder, after: Standing, key: string)
    requires Accounted(before, true, r, after) && !before.kept.redisUp
    requires BillOf(r).Some? ==> |BillOf(r).value.day| == RateLimiter.DAY_LENGTH && BillOf(r).value.event.successN > 0
    ensures DailyTotal(after.kept.daily, key) == DailyTotal(before.kept.daily, key) + UnitsOwed(BillOf(r), key)
    ensures EventUnits(after.events, key) == EventUnits(before.events, key) + UnitsOwed(BillOf(r), key)
    ensures EventCents(after.events, key) == EventCents(before.events, key) + CentsOwed(BillOf(r), key)
  {
    hide Collector.Credited;
    if BillOf(r).Some? {
      var b := BillOf(r).value;
      EventsAdd(before.events, b.event, key);
      DailyTotalAdd(before.kept.daily, b.event.tokenKey, b.day, b.event.successN, key);
    }
  }

  lemma {:induction false} CentsAdd(before: Standing, r: Recorder, after: Standing, key: string, price: int)
    requires Accounted(before, true, r, after) && !before.kept.redisUp
    requires BillOf(r).Some? ==> |BillOf(r).value.day| == RateLimiter.DAY_LENGTH && BillOf(r).value.event.successN > 0
    ensures Balance(Cents(key, price), BooksOf(after))
         == Balance(Cents(key, price), BooksOf(before)) + Correction(Cents(key, price), Owed(r))
  {
    BillAdds(before, r, after, key);
    SuccessesAdd(before.stats, r, after.stats, key, BillableCalls);
    Multiplied(price, Get(Live(before.stats, OfToken(key)), BillableCalls),
               Get(OwedTo(Owed(r), OfToken(key)), BillableCalls));
  }

  // ----- runs of calls --------------------------------------------------------------

  /** Calls taken one after the other, each written down as the handlers do. */
  ghost predicate Calls(states: seq<Standing>, recorders: seq<Recorder>, terms: map<string, Terms>) {
    && |states| == |recorders| + 1
    && states[0] == Standing(Stats(ZERO, map[]), states[0].kept, [])
    && !states[0].kept.redisUp && states[0].kept.daily == map[]
    && forall i :: 0 <= i < |recorders| ==>
         Honest(recorders[i], terms) && Accounted(states[i], true, recorders[i], states[i + 1])
  }

  lemma {:induction false} HonestBills(r: Recorder, terms: map<string, Terms>)
    requires Honest(r, terms)
    ensures BillOf(r).Some? ==> |BillOf(r).value.day| == RateLimiter.DAY_LENGTH && BillOf(r).value.event.successN > 0
  {
  }

  lemma {:induction false} CallsKeepLaws(law: Law, states: seq<Standing>, recorders: seq<Recorder>,
                                         terms: map<string, Terms>, n: nat)
    requires Calls(states, recorders, terms) && Fits(law, terms) && n <= |recorders|
    ensures Satisfied(law, states[n]) && !states[n].kept.redisUp
    decreases n
  {
    hide Accounted, Honest, Balance, Correction, Fits;
    if n == 0 {
      NothingYet(law, states[0]);
    } else {
      var r := recorders[n - 1];
      CallsKeepLaws(law, states, recorders, terms, n - 1);
      HonestBills(r, terms);
      CallAdds(law, states[n - 1], r, states[n]);
      OwedAtFirst(law, r, terms);
      StillInProcess(states[n - 1], r, states[n]);
    }
  }

  lemma {:induction false} StillInProcess(before: Standing, r: Recorder, after: Standing)
    requires Accounted(before, true, r, after)
    ensures after.kept.redisUp == before.kept.redisUp
  {
    hide Collector.Credited;
  }

  lemma {:induction false} NothingYet(law: Law, s: Standing)
    requires s.stats == Stats(ZERO, map[]) && s.events == [] && s.kept.daily == map[]
    ensures Satisfied(law, s)
  {
    EmptyKeepsLaw(law);
    assert BooksOf(s) == EMPTY;
    assert CorrectionValues(law, map[]) == map[];
  }

  /** After any number of HTTP calls and WebSocket messages, a token's successes are the sum
      of its daily counters and of the units handed to billing, and the amounts are price
      times billable calls, nothing for a free token. */
  lemma {:induction false} AccountsAgree(states: seq<Standing>, recorders: seq<Recorder>, terms: map<string, Terms>,
                                         n: nat, key: string)
    requires Calls(states, recorders, terms) && n <= |recorders|
    requires key in terms && terms[key].price >= 0
    ensures var s := states[n]; var m := Live(s.stats, OfToken(key));
            && Get(m, SuccessCalls) == DailyTotal(s.kept.daily, key) == EventUnits(s.events, key)
            && EventCents(s.events, key) == terms[key].price * Get(m, BillableCalls)
            && (terms[key].free ==> EventCents(s.events, key) == 0)
  {
    CallsKeepLaws(Daily(key), states, recorders, terms, n);
    CallsKeepLaws(Events(key), states, recorders, terms, n);
    CallsKeepLaws(Cents(key, terms[key].price), states, recorders, terms, n);
    if terms[key].free {
      CallsKeepLaws(Cents(key, 0), states, recorders, terms, n);
    }
  }

  // ----- down to the tables ---------------------------------------------------------

  function SuccessValues(t: Ledger.Tables, key: string): map<Ledger.Slot, int> {
    map slot | slot in t.usage && slot.0 == key :: t.usage[slot].success
  }

  /** success_count of a token, over all days. */
  ghost function SuccessTotal(t: Ledger.Tables, key: string): int { Total(SuccessValues(t, key)) }

  lemma {:induction false} UpsertAdds(t: Ledger.Tables, e: Billing.Event, key: string,
                                      events: map<string, Billing.Event>, billable: int)
    ensures var u := Ledger.Tables(events, Ledger.Upserted(t.usage, Ledger.SlotOf(e), e.successN, billable));
            SuccessTotal(u, key) == SuccessTotal(t, key) + (if e.tokenKey == key then e.successN else 0)
  {
    var u := Ledger.Tables(events, Ledger.Upserted(t.usage, Ledger.SlotOf(e), e.successN, billable));
    if e.tokenKey == key {
      var v := u.usage[Ledger.SlotOf(e)].success;
      assert SuccessValues(u, key) == SuccessValues(t, key)[Ledger.SlotOf(e) := v];
      TotalUpdate(SuccessValues(t, key), Ledger.SlotOf(e), v);
    } else {
      assert SuccessValues(u, key) == SuccessValues(t, key);
    }
  }

  lemma {:induction false} OnceAddsUp(events: seq<Billing.Event>, key: string)
    requires Ledger.Issued(events)
    ensures SuccessTotal(Ledger.After(Ledger.Once(events)), key) == EventUnits(events, key)
    decreases |events|
  {
    if events == [] {
      assert SuccessValues(Ledger.After([]), key) == map[];
    } else {
      var before, e := events[..|events| - 1], events[|events| - 1];
      OnceAddsUp(before, key);
      var ds := Ledger.Once(events);
      assert ds[..|ds| - 1] == Ledger.Once(before) && ds[|ds| - 1] == Ledger.Delivery(e, Ledger.Fine);
      var t := Ledger.After(Ledger.Once(before));
      assert e.id !in t.events by { NotDeliveredYet(events); }
      assert e.successN > 0;
      UpsertAdds(t, e, key, if e.billable then t.events[e.id := e] else t.events, if e.billable then e.successN else 0);
    }
  }

  lemma {:induction false} NotDeliveredYet(events: seq<Billing.Event>)
    requires Ledger.Issued(events) && events != []
    ensures events[|events| - 1].id !in Ledger.After(Ledger.Once(events[..|events| - 1])).events
  {
    var ds, e := Ledger.Once(events[..|events| - 1]), events[|events| - 1];
    Ledger.StoredAreDelivered(ds);
    forall i | 0 <= i < |ds|
      ensures ds[i].e.id != e.id
    {
      assert ds[i].e == events[i];
    }
  }

  /** Every billable event is committed at least once and every free one exactly once, with
      whatever faults, duplicates and reorderings. */
  ghost predicate Delivered(events: seq<Billing.Event>, ds: seq<Ledger.Delivery>) {
    && Ledger.Issued(events) && (forall i :: 0 <= i < |ds| ==> ds[i].e in events)
    && Ledger.CommittedIds(ds) == Ledger.Billable(events)
    && multiset(Ledger.CommittedFree(ds)) == multiset(Ledger.Kind(events, false))
  }

  lemma {:induction false} TablesShowUnits(events: seq<Billing.Event>, ds: seq<Ledger.Delivery>, key: string)
    requires Delivered(events, ds)
    ensures SuccessTotal(Ledger.After(ds), key) == EventUnits(events, key)
  {
    OnceAddsUp(events, key);
    Ledger.DeliveredOnce(events, ("", ""));
    Ledger.IssuedAgree(events, ds);
    Ledger.SameCommitsSameTables(ds, Ledger.Once(events));
  }

  /** From the request to the table: usage_daily counts, over all days, just the successes
      that the statistics show. */
  lemma {:induction false} TablesAgreeWithStatistics(states: seq<Standing>, recorders: seq<Recorder>,
                                                     terms: map<string, Terms>, n: nat,
                                                     ds: seq<Ledger.Delivery>, key: string)
    requires Calls(states, recorders, terms) && n <= |recorders| && key in terms && terms[key].price >= 0
    requires Delivered(states[n].events, ds)
    ensures SuccessTotal(Ledger.After(ds), key) == Get(Live(states[n].stats, OfToken(key)), SuccessCalls)
  {
    AccountsAgree(states, recorders, terms, n, key);
    TablesShowUnits(states[n].events, ds, key);
  }
}
