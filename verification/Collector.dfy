/** The statistics collector (internal/stats/collector.go). Each recorder carries the ghost
    debt of its machine counterpart through its atomic additions, so that paying in another
    order, or another amount, does not verify. */
module Collector {
  import opened Sums
  import opened Metering
  import opened MeteringLaws

  /** What the recorder owed is split between what was credited and what is still owed. */
  ghost predicate Balanced(before: Stats, r: Recorder, s: Stats, d: Debt) {
    && d.r == r
    && forall t: Target, f: Field ::
         Get(Live(s, t), f) + Get(OwedTo(d, t), f) == Get(Live(before, t), f) + Get(OwedTo(Owed(r), t), f)
  }

  /** Only the recorder's token is new or has new metadata. */
  ghost predicate SameTokens(before: Stats, r: Recorder, s: Stats) {
    && s.tokens.Keys == before.tokens.Keys + (if HasToken(r) then {r.meta.key} else {})
    && (forall k :: k in before.tokens && !(HasToken(r) && k == r.meta.key) ==> s.tokens[k] == before.tokens[k])
    && (HasToken(r) ==> s.tokens[r.meta.key].meta == r.meta)
  }

  /** Every target is credited with exactly what the recorder owes it. */
  ghost predicate Credited(before: Stats, r: Recorder, s: Stats) {
    && SameTokens(before, r, s)
    && forall t: Target, f: Field ::
         Get(Live(s, t), f) == Get(Live(before, t), f) + Get(OwedTo(Owed(r), t), f)
  }

  // ----- what a recorder counts -----------------------------------------------------

  /** The counters of everyone, of the token and of its chain, as far as they are named, have
      grown by these numbers; every other counter is as before. */
  ghost predicate Raised(before: Stats, s: Stats, key: Option<string>, chain: Option<string>, more: Metrics) {
    forall t: Target, f: Field ::
      Get(Live(s, t), f) == Get(Live(before, t), f) + (if Reaches(t, key, chain) then Get(more, f) else 0)
  }

  predicate Reaches(t: Target, key: Option<string>, chain: Option<string>) {
    match t
    case Everyone => true
    case OfToken(k) => key == Some(k)
    case OfChain(k, c) => key == Some(k) && chain == Some(c)
  }

  /** A chain without a name is counted under an underscore. */
  function Named(chain: string): Option<string> { Some(if chain == "" then "_" else chain) }

  /** A call that was answered. */
  function Forwarded(successes: int, errors: int, billable: bool): Metrics {
    var n := if successes > 0 then successes else 0;
    map[Requests := 1, Proxied := 1, SuccessCalls := n, RPCErrors := if errors > 0 then errors else 0,
        BillableCalls := if billable then n else 0, FreeCalls := if billable then 0 else n]
  }

  /** Pushes: the raw count, and the units that they are worth. */
  function Pushed(raw: int, units: int, billable: bool): Metrics {
    var n := if units > 0 then units else raw;
    map[WSNotifications := raw, SuccessCalls := n,
        BillableCalls := if billable then n else 0, FreeCalls := if billable then 0 else n]
  }

  /** Being credited with what a recorder owes, in numbers. */
  lemma {:induction false} RefusalRaises(before: Stats, r: Recorder, s: Stats)
    requires Credited(before, r, s)
    ensures match r
            case RejectDomain => Raised(before, s, None, None, map[DomainRejected := 1])
            case FailAuth => Raised(before, s, None, None, map[AuthFailed := 1, Requests := 1])
            case DenyMethod(meta) => Raised(before, s, Some(meta.key), None, map[MethodDenied := 1, Requests := 1])
            case LimitRate(meta) => Raised(before, s, Some(meta.key), None, map[RateLimited := 1, Requests := 1])
            case _ => true
  {
  }

  lemma {:induction false} AttemptRaises(before: Stats, r: Recorder, s: Stats)
    requires Credited(before, r, s)
    ensures match r
            case Connect(meta, chain) => Raised(before, s, Some(meta.key), Named(chain), map[WSConnections := 1])
            case Fail(meta, chain) =>
              Raised(before, s, Some(meta.key), Named(chain), map[Requests := 1, Proxied := 1, UpstreamErrors := 1])
            case _ => true
  {
  }

  lemma {:induction false} CallRaises(before: Stats, r: Recorder, s: Stats)
    requires Credited(before, r, s)
    ensures match r
            case Proxy(meta, chain, successes, errors, billable, _) =>
              Raised(before, s, Some(meta.key), Named(chain), Forwarded(successes, errors, billable))
            case Push(meta, chain, raw, units, billable, _) =>
              if raw > 0 then Raised(before, s, Some(meta.key), Named(chain), Pushed(raw, units, billable))
              else Raised(before, s, None, None, map[])
            case _ => true
  {
  }

  /** Looking a token up adds its entry and moves no counter. */
  lemma {:induction false} EnsuringCountsNothing(s: Stats, meta: Meta)
    ensures var u := Ensured(s, meta);
            && u.global == s.global && u.tokens.Keys == s.tokens.Keys + {meta.key}
            && (forall t: Target, f: Field :: Get(Live(u, t), f) == Get(Live(s, t), f))
            && u.tokens[meta.key].meta == meta
            && forall k :: k in s.tokens && k != meta.key ==> u.tokens[k] == s.tokens[k]
  {
  }

  /** One target is credited with what its debt is relieved of; no other is concerned. */
  lemma {:induction false} MoveBalances(before: Stats, s: Stats, d: Debt, s': Stats, d': Debt, hit: Target, f: Field,
                                        n: int)
    requires Balanced(before, d.r, s, d) && d'.r == d.r
    requires Live(s', hit) == Add(Live(s, hit), f, n) && OwedTo(d', hit) == Add(OwedTo(d, hit), f, -n)
    requires forall t: Target :: t != hit ==> Live(s', t) == Live(s, t) && OwedTo(d', t) == OwedTo(d, t)
    ensures Balanced(before, d.r, s', d')
  {
    forall t: Target, g: Field
      ensures Get(Live(s', t), g) + Get(OwedTo(d', t), g) == Get(Live(before, t), g) + Get(OwedTo(Owed(d.r), t), g)
    {
      SumStays(Live(s, t), OwedTo(d, t), Live(s', t), OwedTo(d', t), f, n, t == hit, g);
    }
  }

  lemma {:induction false} SumStays(m: Metrics, o: Metrics, m': Metrics, o': Metrics, f: Field, n: int, hit: bool,
                                    g: Field)
    requires if hit then m' == Add(m, f, n) && o' == Add(o, f, -n) else m' == m && o' == o
    ensures Get(m', g) + Get(o', g) == Get(m, g) + Get(o, g)
  {
  }

  lemma {:induction false} GlobalBalances(before: Stats, s: Stats, d: Debt, f: Field, n: int)
    requires Balanced(before, d.r, s, d)
    ensures Balanced(before, d.r, AddGlobal(s, f, n), d.(global := Add(d.global, f, -n)))
  {
    hide Balanced, Add;
    MoveBalances(before, s, d, AddGlobal(s, f, n), d.(global := Add(d.global, f, -n)), Everyone, f, n);
  }

  lemma {:induction false} TokenCounts(s: Stats, key: string, f: Field, n: int)
    requires key in s.tokens
    ensures Live(AddToken(s, key, f, n), OfToken(key)) == Add(Live(s, OfToken(key)), f, n)
    ensures forall t: Target :: t != OfToken(key) ==> Live(AddToken(s, key, f, n), t) == Live(s, t)
  {
    hide Add;
  }

  lemma {:induction false} TokenBalances(before: Stats, s: Stats, d: Debt, f: Field, n: int)
    requires Balanced(before, d.r, s, d) && HasToken(d.r) && d.Key() in s.tokens
    ensures Balanced(before, d.r, AddToken(s, d.Key(), f, n), d.(token := Add(d.token, f, -n)))
  {
    TokenCounts(s, d.Key(), f, n);
    hide Balanced, Add, AddToken, Live;
    MoveBalances(before, s, d, AddToken(s, d.Key(), f, n), d.(token := Add(d.token, f, -n)), OfToken(d.Key()), f, n);
  }

  lemma {:induction false} ChainCounts(s: Stats, key: string, chain: string, f: Field, n: int)
    requires key in s.tokens && chain in s.tokens[key].chains
    ensures Live(AddChain(s, key, chain, f, n), OfChain(key, chain)) == Add(Live(s, OfChain(key, chain)), f, n)
    ensures forall t: Target :: t != OfChain(key, chain) ==> Live(AddChain(s, key, chain, f, n), t) == Live(s, t)
  {
    hide Add;
  }

  lemma {:induction false} ChainBalances(before: Stats, s: Stats, d: Debt, f: Field, n: int)
    requires Balanced(before, d.r, s, d) && HasChain(d.r) && d.Key() in s.tokens
             && d.Chain() in s.tokens[d.Key()].chains
    ensures Balanced(before, d.r, AddChain(s, d.Key(), d.Chain(), f, n), d.(chain := Add(d.chain, f, -n)))
  {
    ChainCounts(s, d.Key(), d.Chain(), f, n);
    hide Balanced, Add, AddChain, Live;
    MoveBalances(before, s, d, AddChain(s, d.Key(), d.Chain(), f, n), d.(chain := Add(d.chain, f, -n)),
                 OfChain(d.Key(), d.Chain()), f, n);
  }

  lemma {:induction false} LookupCounts(s: Stats, meta: Meta, key: string, chain: string)
    ensures forall t: Target :: Live(Ensured(s, meta), t) == Live(s, t)
    ensures key in s.tokens ==> forall t: Target :: Live(EnsuredChain(s, key, chain), t) == Live(s, t)
  {
  }

  lemma {:induction false} FindingBalances(before: Stats, s: Stats, d: Debt, s': Stats, d': Debt)
    requires Balanced(before, d.r, s, d)
    requires d' == d.(foundToken := d'.foundToken, foundChain := d'.foundChain)
    requires forall t: Target :: Live(s', t) == Live(s, t)
    ensures Balanced(before, d.r, s', d')
  {
    forall t: Target, g: Field
      ensures Get(Live(s', t), g) + Get(OwedTo(d', t), g) == Get(Live(before, t), g) + Get(OwedTo(Owed(d.r), t), g)
    {
      assert Get(Live(s, t), g) + Get(OwedTo(d, t), g) == Get(Live(before, t), g) + Get(OwedTo(Owed(d.r), t), g);
    }
  }

  lemma {:induction false} NothingOwed(before: Stats, s: Stats, d: Debt)
    requires Balanced(before, d.r, s, d) && IsZero(d.global) && IsZero(d.token) && IsZero(d.chain)
    requires SameTokens(before, d.r, s)
    ensures Credited(before, d.r, s)
  {
    forall t: Target, f: Field
      ensures Get(Live(s, t), f) == Get(Live(before, t), f) + Get(OwedTo(Owed(d.r), t), f)
    {
      assert Get(OwedTo(d, t), f) == 0;
    }
  }

  lemma {:induction false} NothingCredited(before: Stats, r: Recorder)
    ensures Balanced(before, r, before, Owed(r))
  {
  }

  /** Having found its chain, the recorder owes `m` at every level. */
  ghost predicate Owes(d: Debt, m: Metrics) {
    && d.foundToken && d.foundChain
    && forall f: Field :: Get(d.global, f) == Get(d.token, f) == Get(d.chain, f) == Get(m, f)
  }

  lemma {:induction false} AllPaid(before: Stats, s: Stats, d: Debt, m: Metrics)
    requires Balanced(before, d.r, s, d) && SameTokens(before, d.r, s) && Owes(d, m)
    requires IsZero(m)
    ensures Credited(before, d.r, s)
  {
    NothingOwed(before, s, d);
  }

  function PaidGlobal(d: Debt, f: Field, n: int): Debt { d.(global := Add(d.global, f, -n)) }
  function PaidToken(d: Debt, f: Field, n: int): Debt { d.(token := Add(d.token, f, -n)) }
  function PaidChain(d: Debt, f: Field, n: int): Debt { d.(chain := Add(d.chain, f, -n)) }

  lemma {:induction false} OwesLess(d: Debt, m: Metrics, f: Field, n: int)
    requires Owes(d, m) && n == Get(m, f) != 0
    ensures CanPayGlobal(d, f) && n == Get(d.global, f)
    ensures CanPayToken(PaidGlobal(d, f, n), f) && n == Get(d.token, f)
    ensures CanPayChain(PaidToken(PaidGlobal(d, f, n), f, n), f) && n == Get(d.chain, f)
    ensures Owes(PaidChain(PaidToken(PaidGlobal(d, f, n), f, n), f, n), m - {f})
  {
    var d' := PaidChain(PaidToken(PaidGlobal(d, f, n), f, n), f, n);
    forall h: Field
      ensures Get(d'.global, h) == Get(d'.token, h) == Get(d'.chain, h) == Get(m - {f}, h)
    {
      assert Get(d.global, h) == Get(d.token, h) == Get(d.chain, h) == Get(m, h);
      assert Get(d.global, f) == Get(d.token, f) == Get(d.chain, f) == n;
    }
  }

  /** A recorder that pays two of its fields at every level, from the top. */
  function BothAbove(d: Debt, f: Field, m: int, g: Field, n: int): Debt {
    PaidGlobal(PaidGlobal(d, f, m), g, n)
  }

  function BothInside(d: Debt, f: Field, m: int, g: Field, n: int): Debt {
    PaidToken(PaidToken(BothAbove(d, f, m, g, n).(foundToken := true), f, m), g, n)
  }

  function BothBelow(d: Debt, f: Field, m: int, g: Field, n: int): Debt {
    PaidChain(PaidChain(BothInside(d, f, m, g, n).(foundChain := true), f, m), g, n)
  }

  lemma {:induction false} BothPaid(d: Debt, f: Field, m: int, g: Field, n: int)
    requires HasChain(d.r) && f != g && d == Owed(d.r) && m == Get(Delta(d.r), f) != 0 && n == Get(Delta(d.r), g) != 0
    ensures CanPayGlobal(d, f) && Get(d.global, f) == m
    ensures CanPayGlobal(PaidGlobal(d, f, m), g) && Get(PaidGlobal(d, f, m).global, g) == n
    ensures var above := BothAbove(d, f, m, g, n);
            Get(above.global, f) == Get(above.global, g) == 0 && Get(above.token, f) == m && Get(above.token, g) == n
    ensures var inside := BothInside(d, f, m, g, n);
            Get(inside.token, f) == Get(inside.token, g) == 0 && Get(inside.chain, f) == m && Get(inside.chain, g) == n
    ensures Owes(BothBelow(d, f, m, g, n), Delta(d.r) - {f} - {g})
  {
    hide Delta, Owes;
    OwesTheRest(d, f, m, g, n);
  }

  lemma {:induction false} OwesTheRest(d: Debt, f: Field, m: int, g: Field, n: int)
    requires HasChain(d.r) && f != g && d == Owed(d.r) && m == Get(Delta(d.r), f) && n == Get(Delta(d.r), g)
    ensures Owes(BothBelow(d, f, m, g, n), Delta(d.r) - {f} - {g})
  {
    hide Delta;
    var d' := BothBelow(d, f, m, g, n);
    var owed := Add(Add(Delta(d.r), f, -m), g, -n);
    assert d'.global == owed && d'.token == owed && d'.chain == owed;
    forall h: Field
      ensures Get(owed, h) == Get(Delta(d.r) - {f} - {g}, h)
    {
      ClearedTwice(Delta(d.r), f, g, h);
    }
    hide Add, Get;
  }

  lemma {:induction false} ClearedTwice(m: Metrics, f: Field, g: Field, h: Field)
    requires f != g
    ensures Get(Add(Add(m, f, -Get(m, f)), g, -Get(m, g)), h) == Get(m - {f} - {g}, h)
  {
  }

  function Billed(billable: bool): Field { if billable then BillableCalls else FreeCalls }

  /** What is left to pay after each of the steps of a push. */
  lemma {:induction false} PushOwes(r: Recorder, n: int)
    requires r.Push? && r.raw > 0 && n == Units(r.raw, r.units)
    ensures HasChain(r) && Get(Delta(r), WSNotifications) == r.raw && Get(Delta(r), SuccessCalls) == n > 0
    ensures var m := Delta(r) - {WSNotifications} - {SuccessCalls};
            Get(m, Billed(r.billable)) == n && IsZero(m - {Billed(r.billable)})
  {
  }

  /** The same for a call. */
  lemma {:induction false} CallOwes(r: Recorder)
    requires r.Fail? || r.Proxy?
    ensures HasChain(r) && Get(Delta(r), Requests) == Get(Delta(r), Proxied) == 1
    ensures var m := Delta(r) - {Requests} - {Proxied};
            if r.Fail? then Get(m, UpstreamErrors) == 1 && IsZero(m - {UpstreamErrors}) else
            var rest := if r.successes > 0 then m - {SuccessCalls} - {Billed(r.billable)} else m;
            && (r.successes > 0 ==> Get(m, SuccessCalls) == Get(m, Billed(r.billable)) == r.successes)
            && (r.errors > 0 ==> Get(rest, RPCErrors) == r.errors)
            && IsZero(if r.errors > 0 then rest - {RPCErrors} else rest)
  {
  }

  class Collector {
    var global: Metrics
    var tokens: map<string, TokenState>

    constructor ()
      ensures View() == Stats(ZERO, map[])
    {
      global, tokens := ZERO, map[];
    }

    function View(): Stats
      reads this
    {
      Stats(global, tokens)
    }

    // ----- the atomic operations

    /** The recorder's statistics so far: balanced, and no token touched but its own. */
    ghost predicate Underway(before: Stats, d: Debt)
      reads this
    {
      && Balanced(before, d.r, View(), d)
      && (d.foundToken ==> HasToken(d.r) && SameTokens(before, d.r, View()))
      && (!d.foundToken ==> tokens == before.tokens)
      && (d.foundChain ==> d.foundToken && HasChain(d.r) && d.Chain() in tokens[d.Key()].chains)
    }

    method IncGlobal(f: Field, n: int, ghost before: Stats, ghost d: Debt) returns (ghost d': Debt)
      requires CanPayGlobal(d, f) && n == Get(d.global, f) && Underway(before, d)
      modifies this`global
      ensures d' == PaidGlobal(d, f, n) && Underway(before, d')
    {
      GlobalBalances(before, View(), d, f, n);
      global := Add(global, f, n);
      d' := d.(global := Add(d.global, f, -n));
    }

    method EnsureToken(meta: Meta)
      modifies this`tokens
      ensures View() == Ensured(old(View()), meta)
    {
      if meta.key in tokens {
        tokens := tokens[meta.key := tokens[meta.key].(meta := meta)];
        return;
      }
      tokens := tokens[meta.key := TokenState(meta, ZERO, map[])];
    }

    method FindToken(ghost before: Stats, meta: Meta, ghost d: Debt) returns (ghost d': Debt)
      requires HasToken(d.r) && meta == d.r.meta && !d.foundToken && Underway(before, d)
      modifies this`tokens
      ensures d' == d.(foundToken := true) && Underway(before, d')
    {
      d' := d.(foundToken := true);
      LookupCounts(View(), meta, "", "");
      FindingBalances(before, View(), d, Ensured(View(), meta), d');
      hide Balanced;
      EnsureToken(meta);
    }

    method IncToken(key: string, f: Field, n: int, ghost before: Stats, ghost d: Debt) returns (ghost d': Debt)
      requires CanPayToken(d, f) && n == Get(d.token, f) && HasToken(d.r) && key == d.Key() && Underway(before, d)
      modifies this`tokens
      ensures d' == PaidToken(d, f, n) && Underway(before, d')
    {
      TokenBalances(before, View(), d, f, n);
      tokens := tokens[key := tokens[key].(metrics := Add(tokens[key].metrics, f, n))];
      d' := d.(token := Add(d.token, f, -n));
    }

    /** LoadOrStore of the chain's counters; the chain without a name is called "_". */
    method FindChain(key: string, chainID: string, ghost before: Stats, ghost d: Debt)
        returns (chain: string, ghost d': Debt)
      requires HasChain(d.r) && key == d.Key() && chainID == d.r.chain && d.foundToken && !d.foundChain
               && Underway(before, d)
      modifies this`tokens
      ensures chain == d.Chain() && d' == d.(foundChain := true) && Underway(before, d')
    {
      chain := chainID;
      if chain == "" {
        chain := "_";
      }
      d' := d.(foundChain := true);
      LookupCounts(View(), d.r.meta, key, chain);
      hide Balanced, Live, OwedTo;
      FindingBalances(before, View(), d, EnsuredChain(View(), key, chain), d');
      if chain !in tokens[key].chains {
        tokens := tokens[key := tokens[key].(chains := tokens[key].chains[chain := ZERO])];
      }
    }

    method IncChain(key: string, chain: string, f: Field, n: int, ghost before: Stats, ghost d: Debt)
        returns (ghost d': Debt)
      requires CanPayChain(d, f) && n == Get(d.chain, f) && HasChain(d.r) && key == d.Key() && chain == d.Chain()
      requires Underway(before, d)
      modifies this`tokens
      ensures d' == PaidChain(d, f, n) && Underway(before, d')
    {
      ChainBalances(before, View(), d, f, n);
      var t := tokens[key];
      tokens := tokens[key := t.(chains := t.chains[chain := Add(t.chains[chain], f, n)])];
      d' := d.(chain := Add(d.chain, f, -n));
    }

    /** One addition at all three levels, from the global counters down. */
    method IncAll(key: string, chain: string, f: Field, n: int, ghost m: Metrics, ghost before: Stats, ghost d: Debt)
      returns (ghost d': Debt)
      requires HasChain(d.r) && key == d.Key() && chain == d.Chain() && Underway(before, d)
      requires Owes(d, m) && n == Get(m, f) != 0
      modifies this
      ensures Underway(before, d') && Owes(d', m - {f}) && d'.r == d.r && d'.foundToken
    {
      hide Balanced, SameTokens, Owes;
      OwesLess(d, m, f, n);
      d' := IncGlobal(f, n, before, d);
      d' := IncToken(key, f, n, before, d');
      d' := IncChain(key, chain, f, n, before, d');
    }

    /** Two additions that follow each other at every level, with the lookups in between. */
    method IncBoth(meta: Meta, chainID: string, f: Field, m: int, g: Field, n: int, ghost before: Stats,
                   ghost r: Recorder)
      returns (cm: string, ghost d': Debt)
      requires HasChain(r) && meta == r.meta && chainID == r.chain && f != g && before == View()
      requires m == Get(Delta(r), f) != 0 && n == Get(Delta(r), g) != 0
      modifies this
      ensures Underway(before, d') && Owes(d', Delta(r) - {f} - {g}) && d'.r == r && d'.foundToken && cm == d'.Chain()
    {
      hide Balanced, SameTokens, Owes, Delta, Get, Add;
      d' := Owed(r);
      NothingCredited(before, r);
      BothPaid(d', f, m, g, n);
      d' := IncGlobal(f, m, before, d');
      d' := IncGlobal(g, n, before, d');
      d' := IncTwoInside(meta, f, m, g, n, before, d');
      cm, d' := IncTwoBelow(meta.key, chainID, f, m, g, n, before, d');
    }

    method IncTwoInside(meta: Meta, f: Field, m: int, g: Field, n: int, ghost before: Stats, ghost d: Debt)
        returns (ghost d': Debt)
      requires HasToken(d.r) && meta == d.r.meta && !d.foundToken && f != g && Underway(before, d)
      requires Get(d.global, f) == Get(d.global, g) == 0 && m == Get(d.token, f) != 0 && n == Get(d.token, g) != 0
      modifies this`tokens
      ensures d' == PaidToken(PaidToken(d.(foundToken := true), f, m), g, n) && Underway(before, d')
    {
      hide Balanced, SameTokens;
      d' := FindToken(before, meta, d);
      d' := IncToken(meta.key, f, m, before, d');
      d' := IncToken(meta.key, g, n, before, d');
    }

    method IncTwoBelow(key: string, chainID: string, f: Field, m: int, g: Field, n: int, ghost before: Stats,
                       ghost d: Debt)
      returns (cm: string, ghost d': Debt)
      requires HasChain(d.r) && key == d.Key() && chainID == d.r.chain && d.foundToken && !d.foundChain && f != g
      requires Get(d.token, f) == Get(d.token, g) == 0 && m == Get(d.chain, f) != 0 && n == Get(d.chain, g) != 0
      requires Underway(before, d)
      modifies this`tokens
      ensures d' == PaidChain(PaidChain(d.(foundChain := true), f, m), g, n) && Underway(before, d') && cm == d'.Chain()
    {
      hide Balanced, SameTokens;
      cm, d' := FindChain(key, chainID, before, d);
      d' := IncChain(key, cm, f, m, before, d');
      d' := IncChain(key, cm, g, n, before, d');
    }

    /** Units are counted as billable or as free. */
    method IncBilled(key: string, chain: string, n: int, billable: bool, ghost m: Metrics, ghost before: Stats,
                     ghost d: Debt)
      returns (ghost d': Debt)
      requires HasChain(d.r) && key == d.Key() && chain == d.Chain() && Underway(before, d) && Owes(d, m)
      requires n == Get(m, Billed(billable)) != 0
      modifies this
      ensures Underway(before, d') && Owes(d', m - {Billed(billable)})
      ensures d'.r == d.r && d'.foundToken
    {
      hide Balanced, SameTokens, Owes;
      if billable {
        d' := IncAll(key, chain, BillableCalls, n, m, before, d);
      } else {
        d' := IncAll(key, chain, FreeCalls, n, m, before, d);
      }
    }

    /** Successes are counted, and counted again as billable or as free. */
    method IncSuccesses(key: string, chain: string, n: int, billable: bool, ghost m: Metrics, ghost before: Stats,
                        ghost d: Debt)
      returns (ghost d': Debt)
      requires HasChain(d.r) && key == d.Key() && chain == d.Chain() && d.foundToken && Underway(before, d)
               && Owes(d, m)
      requires n == Get(m, SuccessCalls) == Get(m, Billed(billable)) != 0
      modifies this
      ensures Underway(before, d') && Owes(d', m - {SuccessCalls} - {Billed(billable)})
      ensures d'.r == d.r && d'.foundToken
    {
      hide Balanced, SameTokens, Owes;
      d' := IncAll(key, chain, SuccessCalls, n, m, before, d);
      d' := IncBilled(key, chain, n, billable, m - {SuccessCalls}, before, d');
    }

    // ----- the recorders

    method IncDomainRejected()
      modifies this`global
      ensures Credited(old(View()), RejectDomain, View())
      ensures Raised(old(View()), View(), None, None, map[DomainRejected := 1])
    {
      ghost var before, d := View(), Owed(RejectDomain);
      d := IncGlobal(DomainRejected, 1, before, d);
      NothingOwed(before, View(), d);
      hide Raised, Credited;
      RefusalRaises(before, RejectDomain, View());
    }

    method IncAuthFailed()
      modifies this`global
      ensures Credited(old(View()), FailAuth, View())
      ensures Raised(old(View()), View(), None, None, map[AuthFailed := 1, Requests := 1])
    {
      ghost var before, d := View(), Owed(FailAuth);
      d := IncGlobal(AuthFailed, 1, before, d);
      d := IncGlobal(Requests, 1, before, d);
      NothingOwed(before, View(), d);
      hide Raised, Credited;
      RefusalRaises(before, FailAuth, View());
    }

    method IncMethodDenied(meta: Meta)
      modifies this
      ensures Credited(old(View()), DenyMethod(meta), View())
      ensures Raised(old(View()), View(), Some(meta.key), None, map[MethodDenied := 1, Requests := 1])
    {
      ghost var before, d := View(), Owed(DenyMethod(meta));
      NothingCredited(before, DenyMethod(meta));
      hide Balanced, SameTokens, Credited, Raised;
      d := IncGlobal(MethodDenied, 1, before, d);
      d := IncGlobal(Requests, 1, before, d);
      d := FindToken(before, meta, d);
      d := IncToken(meta.key, MethodDenied, 1, before, d);
      d := IncToken(meta.key, Requests, 1, before, d);
      NothingOwed(before, View(), d);
      RefusalRaises(before, DenyMethod(meta), View());
    }

    method IncRateLimited(meta: Meta)
      modifies this
      ensures Credited(old(View()), LimitRate(meta), View())
      ensures Raised(old(View()), View(), Some(meta.key), None, map[RateLimited := 1, Requests := 1])
    {
      ghost var before, d := View(), Owed(LimitRate(meta));
      NothingCredited(before, LimitRate(meta));
      hide Balanced, SameTokens, Credited, Raised;
      d := IncGlobal(RateLimited, 1, before, d);
      d := IncGlobal(Requests, 1, before, d);
      d := FindToken(before, meta, d);
      d := IncToken(meta.key, RateLimited, 1, before, d);
      d := IncToken(meta.key, Requests, 1, before, d);
      NothingOwed(before, View(), d);
      RefusalRaises(before, LimitRate(meta), View());
    }

    method RecordProxy(meta: Meta, chainID: string, successCalls: int, rpcErrors: int, upstreamErr: bool,
                       billable: bool)
      modifies this
      ensures Credited(old(View()), if upstreamErr then Fail(meta, chainID)
                                    else Proxy(meta, chainID, successCalls, rpcErrors, billable, None), View())
      ensures Raised(old(View()), View(), Some(meta.key), Named(chainID),
                     if upstreamErr then map[Requests := 1, Proxied := 1, UpstreamErrors := 1]
                     else Forwarded(successCalls, rpcErrors, billable))
    {
      hide Balanced, SameTokens, Credited, Owes, Owed, Delta, Get, Billed, Raised, Named, Forwarded;
      ghost var r := if upstreamErr then Fail(meta, chainID)
          else Proxy(meta, chainID, successCalls, rpcErrors, billable, None);
      ghost var before := View();
      CallOwes(r);
      var cm;
      ghost var d;
      cm, d := IncBoth(meta, chainID, Requests, 1, Proxied, 1, before, r);
      ghost var m := Delta(r) - {Requests} - {Proxied};
      if upstreamErr {
        d := IncAll(meta.key, cm, UpstreamErrors, 1, m, before, d);
        m := m - {UpstreamErrors};
        AllPaid(before, View(), d, m);
        AttemptRaises(before, r, View());
        return;
      }
      if successCalls > 0 {
        d := IncSuccesses(meta.key, cm, successCalls, billable, m, before, d);
        m := m - {SuccessCalls} - {Billed(billable)};
      }
      if rpcErrors > 0 {
        d := IncAll(meta.key, cm, RPCErrors, rpcErrors, m, before, d);
        m := m - {RPCErrors};
      }
      AllPaid(before, View(), d, m);
      CallRaises(before, r, View());
    }

    method RecordWSConnect(meta: Meta, chainID: string)
      modifies this
      ensures Credited(old(View()), Connect(meta, chainID), View())
      ensures Raised(old(View()), View(), Some(meta.key), Named(chainID), map[WSConnections := 1])
    {
      ghost var before, d := View(), Owed(Connect(meta, chainID));
      NothingCredited(before, Connect(meta, chainID));
      hide Balanced, SameTokens, Credited, Raised, Named;
      d := IncGlobal(WSConnections, 1, before, d);
      d := FindToken(before, meta, d);
      d := IncToken(meta.key, WSConnections, 1, before, d);
      var cm;
      cm, d := FindChain(meta.key, chainID, before, d);
      d := IncChain(meta.key, cm, WSConnections, 1, before, d);
      NothingOwed(before, View(), d);
      AttemptRaises(before, Connect(meta, chainID), View());
    }

    method RecordWSNotification(meta: Meta, chainID: string, rawCount: int, billUnits: int, billable: bool)
      modifies this
      ensures Credited(old(View()), Push(meta, chainID, rawCount, billUnits, billable, None), View())
      ensures if rawCount > 0 then
                Raised(old(View()), View(), Some(meta.key), Named(chainID), Pushed(rawCount, billUnits, billable))
              else View() == old(View())
    {
      ghost var before, r := View(), Push(meta, chainID, rawCount, billUnits, billable, None);
      if rawCount <= 0 {
        NothingOwed(before, View(), Owed(r));
        return;
      }
      hide Balanced, SameTokens, Credited, Owes, Owed, Delta, Get, Raised, Named, Pushed;
      var units := billUnits;
      if units <= 0 {
        units := rawCount;
      }
      PushOwes(r, units);
      var cm;
      ghost var d;
      cm, d := IncBoth(meta, chainID, WSNotifications, rawCount, SuccessCalls, units, before, r);
      ghost var m := Delta(r) - {WSNotifications} - {SuccessCalls};
      d := IncBilled(meta.key, cm, units, billable, m, before, d);
      AllPaid(before, View(), d, m - {Billed(billable)});
      CallRaises(before, r, View());
    }

    /** The overview of an undisturbed reader: every token once, and the totals. */
    method Snapshot(known: seq<Meta>) returns (snaps: seq<TokenState>, total: Metrics)
      requires forall k :: k in tokens ==> tokens[k].meta.key == k
      modifies this`tokens
      ensures forall m :: m in known ==> m.key in tokens
      ensures forall k :: k in tokens ==> tokens[k].meta.key == k
      ensures forall t: Target, f: Field :: Get(Live(View(), t), f) == old(Get(Live(View(), t), f))
      ensures total == global
      ensures forall k :: k in tokens ==> tokens[k] in snaps
      ensures |snaps| == |tokens| && forall s :: s in snaps ==> s.meta.key in tokens && tokens[s.meta.key] == s
    {
      hide Ensured, Live;
      for i := 0 to |known|
        invariant forall k :: 0 <= k < i ==> known[k].key in tokens
        invariant forall k :: k in tokens ==> tokens[k].meta.key == k
        invariant forall t: Target, f: Field :: Get(Live(View(), t), f) == old(Get(Live(View(), t), f))
      {
        ghost var s := View();
        EnsureToken(known[i]);
        EnsuringCountsNothing(s, known[i]);
      }
      snaps := [];
      var todo := tokens.Keys;
      while todo != {}
        invariant todo <= tokens.Keys && |snaps| == |tokens.Keys| - |todo|
        invariant forall k :: k in tokens && k !in todo ==> tokens[k] in snaps
        invariant forall s :: s in snaps ==> s.meta.key in tokens && tokens[s.meta.key] == s
      {
        var k :| k in todo;
        todo := todo - {k};
        snaps := snaps + [tokens[k]];
      }
      total := global;
    }
  }
}
