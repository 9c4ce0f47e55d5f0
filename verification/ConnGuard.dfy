/** The limit on WebSocket connections per token (internal/wsproxy/handler.go:32-61, 94-100):
    a session acquires a slot before anything else and releases it when it ends. */
module ConnGuard {

  /** Reading a missing entry gives zero. */
  function At(count: map<string, int>, token: string): int {
    if token in count then count[token] else 0
  }

  predicate Full(count: map<string, int>, max: int, token: string) {
    max > 0 && At(count, token) >= max
  }

  function Acquired(count: map<string, int>, token: string): map<string, int> {
    count[token := At(count, token) + 1]
  }

  function Released(count: map<string, int>, token: string): map<string, int> {
    var n := if At(count, token) > 0 then At(count, token) - 1 else At(count, token);
    if n == 0 then count - {token} else count[token := n]
  }

  class ConnGuard {
    const max: int
    var count: map<string, int>

    constructor (max: int)
      ensures this.max == max && count == map[]
    {
      this.max, count := max, map[];
    }

    method Acquire(token: string) returns (ok: bool)
      modifies this`count
      ensures ok == !Full(old(count), max, token)
      ensures count == if ok then Acquired(old(count), token) else old(count)
    {
      if max > 0 && At(count, token) >= max {
        return false;
      }
      count := count[token := At(count, token) + 1];
      return true;
    }

    method Release(token: string)
      modifies this`count
      ensures count == Released(old(count), token)
    {
      if At(count, token) > 0 {
        count := count[token := count[token] - 1];
      }
      if At(count, token) == 0 {
        count := count - {token};
      } else {
        assert count == Released(old(count), token);
      }
    }
  }

  // ----- any number of sessions, opening and closing in any order -------------------

  /** `holders` are the sessions that hold a slot, with their tokens. */
  datatype State = State(count: map<string, int>, holders: map<nat, string>)

  datatype Step = Open(id: nat, token: string) | Close(id: nat)

  const INIT := State(map[], map[])

  predicate Enabled(s: State, step: Step) {
    match step
    case Open(id, _) => id !in s.holders
    case Close(id) => id in s.holders
  }

  function Apply(max: int, s: State, step: Step): State
    requires Enabled(s, step)
  {
    match step
    case Open(id, token) =>
      if Full(s.count, max, token) then s else State(Acquired(s.count, token), s.holders[id := token])
    case Close(id) => State(Released(s.count, s.holders[id]), s.holders - {id})
  }

  ghost predicate Legal(max: int, steps: seq<Step>) {
    steps == [] ||
    (Legal(max, steps[..|steps| - 1]) && Enabled(End(max, steps[..|steps| - 1]), steps[|steps| - 1]))
  }

  ghost function End(max: int, steps: seq<Step>): State {
    if steps == [] then INIT else
    var before := End(max, steps[..|steps| - 1]);
    if Enabled(before, steps[|steps| - 1]) then Apply(max, before, steps[|steps| - 1]) else before
  }

  function Holding(holders: map<nat, string>, token: string): set<nat> {
    set id | id in holders && holders[id] == token
  }

  /** The count is the number of sessions holding a slot, within the limit, and no entry is
      kept for a token without sessions. */
  ghost predicate Counts(max: int, s: State) {
    && (forall token :: At(s.count, token) == |Holding(s.holders, token)|)
    && (forall token :: token in s.count ==> s.count[token] > 0)
    && (forall token :: max > 0 ==> At(s.count, token) <= max)
  }

  lemma {:induction false} HoldingMore(holders: map<nat, string>, id: nat, token: string, k: string)
    requires id !in holders
    ensures |Holding(holders[id := token], k)| == |Holding(holders, k)| + (if k == token then 1 else 0)
  {
    if k == token {
      assert Holding(holders[id := token], k) == Holding(holders, k) + {id};
    } else {
      assert Holding(holders[id := token], k) == Holding(holders, k);
    }
  }

  lemma {:induction false} HoldingLess(holders: map<nat, string>, id: nat, k: string)
    requires id in holders
    ensures |Holding(holders - {id}, k)| == |Holding(holders, k)| - (if k == holders[id] then 1 else 0)
  {
    if k == holders[id] {
      assert Holding(holders - {id}, k) == Holding(holders, k) - {id};
    } else {
      assert Holding(holders - {id}, k) == Holding(holders, k);
    }
  }

  lemma {:induction false} OpeningCounts(max: int, s: State, id: nat, token: string)
    requires Counts(max, s) && id !in s.holders
    ensures Counts(max, Apply(max, s, Open(id, token)))
  {
    hide Holding;
    if !Full(s.count, max, token) {
      var t := Apply(max, s, Open(id, token));
      forall k
        ensures At(t.count, k) == |Holding(t.holders, k)| && (max > 0 ==> At(t.count, k) <= max)
      {
        assert At(s.count, k) == |Holding(s.holders, k)| && (max > 0 ==> At(s.count, k) <= max);
        HoldingMore(s.holders, id, token, k);
      }
    }
  }

  lemma {:induction false} ClosingCounts(max: int, s: State, id: nat)
    requires Counts(max, s) && id in s.holders
    ensures Counts(max, Apply(max, s, Close(id))) && At(s.count, s.holders[id]) > 0
  {
    var t, token := Apply(max, s, Close(id)), s.holders[id];
    assert id in Holding(s.holders, token);
    hide Holding;
    forall k
      ensures At(t.count, k) == |Holding(t.holders, k)| && (max > 0 ==> At(t.count, k) <= max)
    {
      assert At(s.count, k) == |Holding(s.holders, k)| && (max > 0 ==> At(s.count, k) <= max);
      HoldingLess(s.holders, id, k);
    }
  }

  lemma {:induction false} RunsCount(max: int, steps: seq<Step>)
    requires Legal(max, steps)
    ensures Counts(max, End(max, steps))
    decreases |steps|
  {
    if steps == [] {
      forall token ensures |Holding(INIT.holders, token)| == 0 { assert Holding(INIT.holders, token) == {}; }
    } else {
      var s, last := End(max, steps[..|steps| - 1]), steps[|steps| - 1];
      RunsCount(max, steps[..|steps| - 1]);
      match last {
        case Open(id, token) => OpeningCounts(max, s, id, token);
        case Close(id) => ClosingCounts(max, s, id);
      }
    }
  }

  /** A session is turned away exactly when as many sessions of its token as the limit
      allows are open; and a release never finds its count already at zero. */
  lemma {:induction false} TurnedAwayIff(max: int, steps: seq<Step>, id: nat, token: string)
    requires Legal(max, steps) && id !in End(max, steps).holders
    ensures var s := End(max, steps);
            && (id !in Apply(max, s, Open(id, token)).holders <==> max > 0 && |Holding(s.holders, token)| == max)
            && forall open :: open in s.holders ==> At(s.count, s.holders[open]) > 0
  {
    RunsCount(max, steps);
    var s := End(max, steps);
    forall open | open in s.holders
      ensures At(s.count, s.holders[open]) > 0
    {
      ClosingCounts(max, s, open);
    }
  }

  /** When all sessions are gone, nothing is left in the map. */
  lemma {:induction false} NothingLeaks(max: int, steps: seq<Step>)
    requires Legal(max, steps) && End(max, steps).holders == map[]
    ensures End(max, steps).count == map[]
  {
    RunsCount(max, steps);
    var s := End(max, steps);
    forall token ensures token !in s.count {
      assert Holding(s.holders, token) == {};
    }
  }
}
