/** Admin tokens: the in-process store (internal/adminjwt/memory_store.go), issuing
    (internal/adminjwt/jwt.go:23-55) and rotation (internal/adminjwt/rotator.go:30-80).
    Times are integers; token ids are given. */
module AdminJwt {
  import opened Sums

  /** A stored token. Its expiry test is strict (RFC 7519, section 4.1.4). */
  datatype Record = Record(jti: string, issuedAt: int, expiresAt: int, revoked: bool) {
    predicate Active(now: int) { !revoked && now < expiresAt }
  }

  type Store = map<string, Record>

  predicate IsActive(s: Store, jti: string, now: int) {
    jti in s && s[jti].Active(now)
  }

  /** `clock` says when the walk over the store comes to a token. */
  function Revoked(s: Store, clock: string -> int): Store {
    map k | k in s :: if s[k].Active(clock(k)) then s[k].(revoked := true) else s[k]
  }

  function Cleaned(s: Store, before: int): Store {
    map k | k in s && s[k].expiresAt > before :: s[k]
  }

  /** An active record that no other active record is newer than, or none if none is active. */
  ghost predicate Latest(s: Store, now: int, r: Option<Record>) {
    if r.None? then forall k :: k in s ==> !s[k].Active(now)
    else r.value.Active(now) && (exists k :: k in s && s[k] == r.value) &&
         forall k :: k in s && s[k].Active(now) ==> s[k].issuedAt <= r.value.issuedAt
  }

  class MemoryStore {
    var byJTI: Store

    constructor ()
      ensures byJTI == map[]
    {
      byJTI := map[];
    }

    method Save(rec: Record)
      modifies this
      ensures byJTI == old(byJTI)[rec.jti := rec]
    {
      byJTI := byJTI[rec.jti := rec];
    }

    method Ask(jti: string, now: int) returns (active: bool)
      ensures active == IsActive(byJTI, jti, now)
      ensures active <==> jti in byJTI && !byJTI[jti].revoked && now < byJTI[jti].expiresAt
    {
      if jti !in byJTI || byJTI[jti].revoked {
        return false;
      }
      return now < byJTI[jti].expiresAt;
    }

    method RevokeAllActive(clock: string -> int)
      modifies this
      ensures byJTI == Revoked(old(byJTI), clock)
      ensures byJTI.Keys == old(byJTI).Keys
      ensures forall k :: k in byJTI ==>
                byJTI[k] == old(byJTI)[k].(revoked := old(byJTI)[k].revoked || clock(k) < old(byJTI)[k].expiresAt)
    {
      var todo := byJTI.Keys;
      while todo != {}
        invariant todo <= byJTI.Keys == old(byJTI).Keys
        invariant forall k :: k in todo ==> byJTI[k] == old(byJTI)[k]
        invariant forall k :: k in byJTI && k !in todo ==> byJTI[k] == Revoked(old(byJTI), clock)[k]
      {
        var k :| k in todo;
        todo := todo - {k};
        var rec := byJTI[k];
        if !rec.revoked && clock(k) < rec.expiresAt {
          rec := rec.(revoked := true);
          byJTI := byJTI[k := rec];
        }
      }
    }

    method LatestActive(now: int) returns (best: Option<Record>)
      ensures Latest(byJTI, now, best)
    {
      best := None;
      var todo := byJTI.Keys;
      while todo != {}
        invariant todo <= byJTI.Keys
        invariant Latest(byJTI - todo, now, best)
      {
        var k :| k in todo;
        ghost var seen := byJTI - todo;
        todo := todo - {k};
        var r := byJTI[k];
        assert byJTI - todo == seen[k := r];
        if r.revoked || !(now < r.expiresAt) {
          LatestSkips(seen, k, r, now, best);
          continue;
        }
        if best == None || r.issuedAt > best.value.issuedAt {
          best := Some(r);
          assert (byJTI - todo)[k] == r;
        } else {
          LatestSkips(seen, k, r, now, best);
        }
      }
      assert byJTI - todo == byJTI;
    }

    method CleanupExpired(before: int) returns (n: nat)
      modifies this
      ensures byJTI == Cleaned(old(byJTI), before) && n == |old(byJTI)| - |byJTI|
      ensures forall k :: k in byJTI <==> k in old(byJTI) && before < old(byJTI)[k].expiresAt
      ensures forall k :: k in byJTI ==> byJTI[k] == old(byJTI)[k]
    {
      n := 0;
      var todo := byJTI.Keys;
      while todo != {}
        invariant todo <= byJTI.Keys <= old(byJTI).Keys
        invariant forall k :: k in byJTI ==> byJTI[k] == old(byJTI)[k]
        invariant forall k :: k in old(byJTI) && k !in todo ==> (k in byJTI <==> old(byJTI)[k].expiresAt > before)
        invariant |byJTI| == |old(byJTI)| - n
      {
        var k :| k in todo;
        todo := todo - {k};
        if byJTI[k].expiresAt <= before {
          assert (byJTI - {k}).Keys == byJTI.Keys - {k};
          byJTI := byJTI - {k};
          n := n + 1;
        }
      }
      assert byJTI == Cleaned(old(byJTI), before);
    }
  }

  lemma {:induction false} LatestSkips(s: Store, k: string, r: Record, now: int, best: Option<Record>)
    requires Latest(s, now, best) && k !in s
    requires !r.Active(now) || (best.Some? && r.issuedAt <= best.value.issuedAt)
    ensures Latest(s[k := r], now, best)
  {
    if best.Some? {
      var j :| j in s && s[j] == best.value;
      assert s[k := r][j] == best.value;
    }
  }

  // ----- rotation -------------------------------------------------------------------

  datatype Config = Config(secret: string, ttl: int, revokePrevious: bool, retention: int) {
    predicate CanIssue() { |secret| > 0 && ttl > 0 }
  }

  /** The moments of one rotation, its new id, and whether signing works. */
  datatype Tick = Tick(clock: string -> int, jti: string, issuedAt: int, cleanedAt: int, signs: bool)

  /** The store after a rotation, and whether it brought a new token. */
  function Rotated(cfg: Config, s: Store, t: Tick): (Store, bool) {
    var s1 := if cfg.revokePrevious then Revoked(s, t.clock) else s;
    if !cfg.CanIssue() || !t.signs then (s1, false) else
    var s2 := s1[t.jti := Record(t.jti, t.issuedAt, t.issuedAt + cfg.ttl, false)];
    (if cfg.retention > 0 then Cleaned(s2, t.cleanedAt - cfg.retention) else s2, true)
  }

  function RotatedAll(cfg: Config, s: Store, ticks: seq<Tick>): Store {
    if ticks == [] then s else Rotated(cfg, RotatedAll(cfg, s, ticks[..|ticks| - 1]), ticks[|ticks| - 1]).0
  }

  lemma {:induction false} RotatedOnce(cfg: Config, s: Store, start: seq<Tick>, ticks: seq<Tick>, i: nat)
    requires i < |ticks|
    ensures RotatedAll(cfg, s, start + ticks[..i + 1])
              == Rotated(cfg, RotatedAll(cfg, s, start + ticks[..i]), ticks[i]).0
  {
    var now := start + ticks[..i + 1];
    assert now[..|now| - 1] == start + ticks[..i];
  }

  class Rotator {
    const cfg: Config
    const every: int
    const onStart: bool
    const store: MemoryStore

    constructor (cfg: Config, every: int, onStart: bool, store: MemoryStore)
      ensures this.cfg == cfg && this.every == every && this.onStart == onStart && this.store == store
    {
      this.cfg, this.every, this.onStart, this.store := cfg, every, onStart, store;
    }

    method Issue(now: int, jti: string, signs: bool) returns (r: Option<Record>)
      ensures r == if cfg.CanIssue() && signs then Some(Record(jti, now, now + cfg.ttl, false)) else None
    {
      if |cfg.secret| == 0 {
        return None;
      }
      if cfg.ttl <= 0 || !signs {
        return None;
      }
      return Some(Record(jti, now, now + cfg.ttl, false));
    }

    method Rotate(t: Tick) returns (ok: bool)
      modifies store
      ensures (store.byJTI, ok) == Rotated(cfg, old(store.byJTI), t)
    {
      if cfg.revokePrevious {
        store.RevokeAllActive(t.clock);
      }
      var rec := Issue(t.issuedAt, t.jti, t.signs);
      if rec.None? {
        return false;
      }
      store.Save(rec.value);
      if cfg.retention > 0 {
        var _ := store.CleanupExpired(t.cleanedAt - cfg.retention);
      }
      return true;
    }

    /** The first rotation, if wanted, and one at each tick. */
    method Start(first: Tick, ticks: seq<Tick>)
      modifies store
      ensures store.byJTI == RotatedAll(cfg, old(store.byJTI),
                (if onStart then [first] else []) + (if every > 0 then ticks else []))
    {
      hide Rotated;
      ghost var before, done := store.byJTI, [];
      if onStart {
        var _ := Rotate(first);
        done := [first];
      }
      if every <= 0 {
        assert done + [] == done;
        return;
      }
      ghost var start := done;
      assert start + ticks[..0] == start;
      for i := 0 to |ticks|
        invariant store.byJTI == RotatedAll(cfg, before, start + ticks[..i])
      {
        RotatedOnce(cfg, before, start, ticks, i);
        var _ := Rotate(ticks[i]);
      }
      assert ticks[..|ticks|] == ticks;
    }
  }

  // ----- every run ------------------------------------------------------------------

  /** `newest` is the last token issued, unless all were revoked since; `cleared` says that
      they were and none was issued since. */
  datatype State = State(store: Store, now: int, used: set<string>, newest: Option<Record>, cleared: bool)

  datatype Step = Revoke(clock: string -> int, at: int) | Issue(jti: string, at: int) | Clean(at: int)

  const INIT := State(map[], 0, {}, None, false)

  ghost predicate Enabled(cfg: Config, s: State, step: Step) {
    match step
    case Revoke(clock, at) => forall k: string :: s.now <= clock(k) <= at
    case Issue(jti, at) => s.now <= at && jti !in s.used && cfg.CanIssue() && (cfg.revokePrevious ==> s.cleared)
    case Clean(at) => s.now <= at && cfg.retention > 0
  }

  ghost function Apply(cfg: Config, s: State, step: Step): State {
    match step
    case Revoke(clock, at) => State(Revoked(s.store, clock), at, s.used, None, true)
    case Issue(jti, at) =>
      var rec := Record(jti, at, at + cfg.ttl, false);
      State(s.store[jti := rec], at, s.used + {jti}, Some(rec), false)
    case Clean(at) => s.(store := Cleaned(s.store, at - cfg.retention), now := at)
  }

  ghost predicate Legal(cfg: Config, s: State, steps: seq<Step>) {
    steps == [] ||
    (Legal(cfg, s, steps[..|steps| - 1]) && Enabled(cfg, End(cfg, s, steps[..|steps| - 1]), steps[|steps| - 1]))
  }

  ghost function End(cfg: Config, s: State, steps: seq<Step>): State {
    if steps == [] then s else Apply(cfg, End(cfg, s, steps[..|steps| - 1]), steps[|steps| - 1])
  }

  function StepsOf(cfg: Config, t: Tick): seq<Step> {
    (if cfg.revokePrevious then [Revoke(t.clock, t.issuedAt)] else []) +
    (if cfg.CanIssue() && t.signs
     then [Issue(t.jti, t.issuedAt)] + (if cfg.retention > 0 then [Clean(t.cleanedAt)] else [])
     else [])
  }

  lemma {:induction false} OneStep(cfg: Config, s: State, step: Step)
    ensures End(cfg, s, [step]) == Apply(cfg, s, step)
    ensures Legal(cfg, s, [step]) <==> Enabled(cfg, s, step)
  {
    assert [step][..0] == [];
  }

  lemma {:induction false} OneMoreStep(cfg: Config, s: State, steps: seq<Step>, step: Step)
    ensures End(cfg, s, steps + [step]) == Apply(cfg, End(cfg, s, steps), step)
    ensures Legal(cfg, s, steps + [step]) <==> Legal(cfg, s, steps) && Enabled(cfg, End(cfg, s, steps), step)
  {
    assert (steps + [step])[..|steps|] == steps;
  }

  /** A rotation is a run of these steps. */
  lemma {:induction false} RotationIsSteps(cfg: Config, s: State, t: Tick)
    requires Timely(t, s.now) && t.jti !in s.used
    ensures Legal(cfg, s, StepsOf(cfg, t))
    ensures End(cfg, s, StepsOf(cfg, t)).store == Rotated(cfg, s.store, t).0
  {
    var revoke, issue, clean := Revoke(t.clock, t.issuedAt), Issue(t.jti, t.issuedAt), Clean(t.cleanedAt);
    var first := if cfg.revokePrevious then [revoke] else [];
    OneStep(cfg, s, revoke);
    OneMoreStep(cfg, s, first, issue);
    OneMoreStep(cfg, s, first + [issue], clean);
    assert first + [] == first;
    assert first + ([issue] + [clean]) == first + [issue] + [clean];
    assert first + ([issue] + []) == first + [issue];
  }

  lemma {:induction false} Joined(cfg: Config, s: State, a: seq<Step>, b: seq<Step>)
    ensures End(cfg, s, a + b) == End(cfg, End(cfg, s, a), b)
    ensures Legal(cfg, s, a + b) <==> Legal(cfg, s, a) && Legal(cfg, End(cfg, s, a), b)
    decreases |b|
  {
    if b == [] {
      assert a + b == a;
    } else {
      Joined(cfg, s, a, b[..|b| - 1]);
      assert (a + b)[..|a + b| - 1] == a + b[..|b| - 1];
    }
  }

  function StepsOfAll(cfg: Config, ticks: seq<Tick>): seq<Step> {
    if ticks == [] then [] else StepsOfAll(cfg, ticks[..|ticks| - 1]) + StepsOf(cfg, ticks[|ticks| - 1])
  }

  ghost predicate Timely(t: Tick, now: int) {
    now <= t.issuedAt <= t.cleanedAt && forall k: string :: now <= t.clock(k) <= t.issuedAt
  }

  function EndOf(ticks: seq<Tick>): int { if ticks == [] then 0 else ticks[|ticks| - 1].cleanedAt }

  /** One rotation after the other, with ids of their own. */
  ghost predicate InOrder(ticks: seq<Tick>) {
    && (forall i :: 0 <= i < |ticks| ==> Timely(ticks[i], EndOf(ticks[..i])))
    && (forall i, j :: 0 <= i < j < |ticks| ==> ticks[i].jti != ticks[j].jti)
  }

  lemma {:induction false} StepsOfEnds(cfg: Config, s: State, t: Tick)
    requires Timely(t, s.now)
    ensures var u := End(cfg, s, StepsOf(cfg, t)); u.now <= t.cleanedAt && u.used <= s.used + {t.jti}
  {
    var revoke, issue, clean := Revoke(t.clock, t.issuedAt), Issue(t.jti, t.issuedAt), Clean(t.cleanedAt);
    var first := if cfg.revokePrevious then [revoke] else [];
    OneStep(cfg, s, revoke);
    OneMoreStep(cfg, s, first, issue);
    OneMoreStep(cfg, s, first + [issue], clean);
    assert first + [] == first;
    assert first + ([issue] + [clean]) == first + [issue] + [clean];
    assert first + ([issue] + []) == first + [issue];
  }

  lemma {:induction false} FewerInOrder(ticks: seq<Tick>)
    requires InOrder(ticks) && ticks != []
    ensures InOrder(ticks[..|ticks| - 1]) && Timely(ticks[|ticks| - 1], EndOf(ticks[..|ticks| - 1]))
    ensures forall i :: 0 <= i < |ticks| - 1 ==> ticks[i].jti != ticks[|ticks| - 1].jti
  {
    var before := ticks[..|ticks| - 1];
    forall i | 0 <= i < |before|
      ensures Timely(before[i], EndOf(before[..i]))
    {
      assert Timely(ticks[i], EndOf(ticks[..i]));
      assert before[..i] == ticks[..i];
    }
  }

  lemma {:induction false} Earlier(t: Tick, at: int, now: int)
    requires Timely(t, at) && now <= at
    ensures Timely(t, now)
  {
  }

  lemma {:induction false} LastEnds(before: seq<Tick>, t: Tick)
    ensures EndOf([]) == 0 && EndOf(before + [t]) == t.cleanedAt
  {
  }

  /** Whatever the rotator does, from its start and for however many ticks, is such a run. */
  lemma {:induction false} RotationsAreRuns(cfg: Config, ticks: seq<Tick>)
    requires InOrder(ticks)
    ensures Legal(cfg, INIT, StepsOfAll(cfg, ticks))
    ensures var s := End(cfg, INIT, StepsOfAll(cfg, ticks));
            && s.store == RotatedAll(cfg, map[], ticks)
            && s.now <= EndOf(ticks)
            && forall jti :: jti in s.used ==> exists i :: 0 <= i < |ticks| && ticks[i].jti == jti
    decreases |ticks|
  {
    hide StepsOf, Timely, InOrder, Rotated;
    if ticks != [] {
      var before, t := ticks[..|ticks| - 1], ticks[|ticks| - 1];
      FewerInOrder(ticks);
      RotationsAreRuns(cfg, before);
      var s := End(cfg, INIT, StepsOfAll(cfg, before));
      assert t.jti !in s.used;
      Earlier(t, EndOf(before), s.now);
      RotationIsSteps(cfg, s, t);
      StepsOfEnds(cfg, s, t);
      Joined(cfg, INIT, StepsOfAll(cfg, before), StepsOf(cfg, t));
      assert EndOf(ticks) == t.cleanedAt by { LastEnds(before, t); assert before + [t] == ticks; }
      forall jti | jti in End(cfg, s, StepsOf(cfg, t)).used
        ensures exists i :: 0 <= i < |ticks| && ticks[i].jti == jti
      {
        if jti in s.used {
          var i :| 0 <= i < |before| && before[i].jti == jti;
          assert ticks[i].jti == jti;
        } else {
          assert ticks[|ticks| - 1].jti == jti;
        }
      }
    }
  }

  // ----- one active token at most, and the newest one -------------------------------

  ghost predicate Inv(cfg: Config, s: State) {
    && (forall k :: k in s.store ==> k in s.used && s.store[k].jti == k && s.store[k].issuedAt <= s.now)
    && (s.cleared ==> s.newest.None? && forall k :: k in s.store ==> !s.store[k].Active(s.now))
    && (s.newest.None? ==> forall k :: k in s.store ==> !s.store[k].Active(s.now))
    && (s.newest.Some? ==>
          var r := s.newest.value;
          && !r.revoked
          && (r.Active(s.now) ==> r.jti in s.store && s.store[r.jti] == r)
          && (forall k :: k in s.store && s.store[k].Active(s.now) ==> s.store[k].issuedAt <= r.issuedAt)
          && (cfg.revokePrevious ==> forall k :: k in s.store && s.store[k].Active(s.now) ==> s.store[k] == r))
  }

  lemma {:induction false} StepKeepsInv(cfg: Config, s: State, step: Step)
    requires Inv(cfg, s) && Enabled(cfg, s, step)
    ensures Inv(cfg, Apply(cfg, s, step))
  {
    if step.Revoke? {
      RevokingKeepsInv(cfg, s, step);
    }
  }

  lemma {:induction false} RevokingKeepsInv(cfg: Config, s: State, step: Step)
    requires Inv(cfg, s) && step.Revoke? && Enabled(cfg, s, step)
    ensures Inv(cfg, Apply(cfg, s, step))
  {
    forall k | k in s.store
      ensures !Revoked(s.store, step.clock)[k].Active(step.at)
    {
      assert s.now <= step.clock(k) <= step.at;
    }
  }

  lemma {:induction false} RunsKeepInv(cfg: Config, steps: seq<Step>)
    requires Legal(cfg, INIT, steps)
    ensures Inv(cfg, End(cfg, INIT, steps))
    decreases |steps|
  {
    if steps != [] {
      RunsKeepInv(cfg, steps[..|steps| - 1]);
      StepKeepsInv(cfg, End(cfg, INIT, steps[..|steps| - 1]), steps[|steps| - 1]);
    }
  }

  /** With RevokePrevious no two tokens are ever active together: not after any step of any
      rotation, nor at any time until the next. */
  lemma {:induction false} AtMostOneActive(cfg: Config, steps: seq<Step>, now: int, j: string, k: string)
    requires cfg.revokePrevious && Legal(cfg, INIT, steps) && now >= End(cfg, INIT, steps).now
    requires var s := End(cfg, INIT, steps).store; IsActive(s, j, now) && IsActive(s, k, now)
    ensures j == k
  {
    RunsKeepInv(cfg, steps);
    var s := End(cfg, INIT, steps);
    assert s.store[j].Active(s.now) && s.store[k].Active(s.now);
  }

  /** From its issue until it expires or the next rotation begins, the newest token is what
      LatestActive finds: the very record with RevokePrevious, else one issued no earlier. */
  lemma {:induction false} LatestIsNewest(cfg: Config, steps: seq<Step>, now: int, found: Option<Record>)
    requires Legal(cfg, INIT, steps) && now >= End(cfg, INIT, steps).now
    requires var newest := End(cfg, INIT, steps).newest; newest.Some? && now < newest.value.expiresAt
    requires Latest(End(cfg, INIT, steps).store, now, found)
    ensures var newest := End(cfg, INIT, steps).newest;
            found.Some? && found.value.issuedAt == newest.value.issuedAt && (cfg.revokePrevious ==> found == newest)
  {
    RunsKeepInv(cfg, steps);
    var s := End(cfg, INIT, steps);
    assert s.store[s.newest.value.jti] == s.newest.value;
    var k :| k in s.store && s.store[k] == found.value;
    assert s.store[k].Active(s.now);
  }

  /** The moments of a rotation, in order and not after `now`. */
  ghost predicate Done(t: Tick, now: int) {
    t.issuedAt <= t.cleanedAt <= now && forall k: string :: t.clock(k) <= t.issuedAt
  }

  lemma {:induction false} RevokedAreInactive(s: Store, clock: string -> int, now: int)
    requires forall k: string :: clock(k) <= now
    ensures forall k :: k in s ==> !Revoked(s, clock)[k].Active(now)
  {
    forall k | k in s
      ensures !Revoked(s, clock)[k].Active(now)
    {
      assert clock(k) <= now;
    }
  }

  /** With RevokePrevious, in the lifetime of the token that a rotation would have issued no
      token is active if and only if it issued none; if it did, that token is the one. */
  lemma {:induction false} NoneActiveIff(cfg: Config, s: Store, t: Tick, now: int)
    requires cfg.revokePrevious && Done(t, now) && now < t.issuedAt + cfg.ttl
    ensures Latest(Rotated(cfg, s, t).0, now, None) <==> !Rotated(cfg, s, t).1
    ensures Rotated(cfg, s, t).1 ==>
              Latest(Rotated(cfg, s, t).0, now, Some(Record(t.jti, t.issuedAt, t.issuedAt + cfg.ttl, false)))
    ensures !Rotated(cfg, s, t).1 <==> |cfg.secret| == 0 || !t.signs
  {
    RevokedAreInactive(s, t.clock, now);
    var rec := Record(t.jti, t.issuedAt, t.issuedAt + cfg.ttl, false);
    if Rotated(cfg, s, t).1 {
      assert Rotated(cfg, s, t).0[t.jti] == rec && rec.Active(now);
    }
  }

  lemma {:induction false} StepRevivesNone(cfg: Config, s: State, step: Step, jti: string, now: int)
    requires Enabled(cfg, s, step) && jti in s.used && now >= s.now && !IsActive(s.store, jti, now)
    ensures jti in Apply(cfg, s, step).used && Apply(cfg, s, step).now >= s.now
    ensures forall later :: later >= now && later >= Apply(cfg, s, step).now ==>
              !IsActive(Apply(cfg, s, step).store, jti, later)
  {
    if step.Revoke? {
      assert s.now <= step.clock("") <= step.at;
    }
  }

  // ----- exactly how long a token lives ---------------------------------------------

  ghost predicate Revokes(steps: seq<Step>) { exists i :: 0 <= i < |steps| && steps[i].Revoke? }

  /** What becomes of the token issued at `at`, after the steps since. */
  ghost predicate Aged(cfg: Config, s: State, jti: string, at: int, revoked: bool) {
    && jti in s.used
    && (jti in s.store ==> s.store[jti].expiresAt == at + cfg.ttl)
    && if revoked then jti in s.store ==> s.store[jti].revoked || at + cfg.ttl <= s.now
       else if jti in s.store then !s.store[jti].revoked else at + cfg.ttl <= s.now
  }

  lemma {:induction false} StepAges(cfg: Config, s: State, step: Step, jti: string, at: int, revoked: bool)
    requires Aged(cfg, s, jti, at, revoked) && Enabled(cfg, s, step)
    ensures Aged(cfg, Apply(cfg, s, step), jti, at, revoked || step.Revoke?)
  {
  }

  lemma {:induction false} RevokesMore(steps: seq<Step>, last: Step)
    ensures Revokes(steps + [last]) <==> Revokes(steps) || last.Revoke?
  {
    var more := steps + [last];
    if i :| 0 <= i < |steps| && steps[i].Revoke? {
      assert more[i].Revoke?;
    }
    assert last.Revoke? ==> more[|steps|].Revoke?;
  }

  lemma {:induction false} RunAges(cfg: Config, steps: seq<Step>, more: seq<Step>, jti: string, at: int)
    requires Legal(cfg, INIT, steps + [Issue(jti, at)] + more)
    ensures Aged(cfg, End(cfg, INIT, steps + [Issue(jti, at)] + more), jti, at, Revokes(more))
    decreases |more|
  {
    var all := steps + [Issue(jti, at)] + more;
    if more == [] {
      assert all[..|all| - 1] == steps && all[|all| - 1] == Issue(jti, at);
    } else {
      var before, last := more[..|more| - 1], more[|more| - 1];
      assert all[..|all| - 1] == steps + [Issue(jti, at)] + before && all[|all| - 1] == last;
      RunAges(cfg, steps, before, jti, at);
      RevokesMore(before, last);
      assert more == before + [last];
      hide Aged, Revokes, Apply, Enabled;
      StepAges(cfg, End(cfg, INIT, steps + [Issue(jti, at)] + before), last, jti, at, Revokes(before));
    }
  }

  /** A token is active from its issue until its lifetime has passed or the next revocation,
      exactly, whatever is issued or cleaned in between. */
  lemma {:induction false} ActiveIff(cfg: Config, steps: seq<Step>, more: seq<Step>, jti: string, at: int, now: int)
    requires Legal(cfg, INIT, steps + [Issue(jti, at)] + more)
    requires End(cfg, INIT, steps + [Issue(jti, at)] + more).now <= now
    ensures IsActive(End(cfg, INIT, steps + [Issue(jti, at)] + more).store, jti, now)
            <==> now < at + cfg.ttl && !Revokes(more)
  {
    RunAges(cfg, steps, more, jti, at);
    hide Revokes, End, Legal;
  }

  /** A token that has been issued and is not active never becomes active again. */
  lemma {:induction false} InactiveForGood(cfg: Config, steps: seq<Step>, more: seq<Step>, jti: string, now: int,
                                           later: int)
    requires Legal(cfg, INIT, steps) && Legal(cfg, End(cfg, INIT, steps), more)
    requires jti in End(cfg, INIT, steps).used && now >= End(cfg, INIT, steps).now
    requires !IsActive(End(cfg, INIT, steps).store, jti, now)
    requires later >= now && later >= End(cfg, End(cfg, INIT, steps), more).now
    ensures !IsActive(End(cfg, End(cfg, INIT, steps), more).store, jti, later)
  {
    StaysInactive(cfg, End(cfg, INIT, steps), more, jti, now, later);
  }

  lemma {:induction false} StaysInactive(cfg: Config, s: State, more: seq<Step>, jti: string, now: int, later: int)
    requires Legal(cfg, s, more) && jti in s.used && now >= s.now && !IsActive(s.store, jti, now)
    requires later >= now && later >= End(cfg, s, more).now
    ensures !IsActive(End(cfg, s, more).store, jti, later) && jti in End(cfg, s, more).used
    decreases |more|
  {
    if more != [] {
      var s1 := End(cfg, s, more[..|more| - 1]);
      var last := more[|more| - 1];
      if last.Revoke? { assert s1.now <= last.clock("") <= last.at; }
      StaysInactive(cfg, s, more[..|more| - 1], jti, now, later);
      StepRevivesNone(cfg, s1, last, jti, later);
    }
  }

  // ----- cleaning up is not noticed -------------------------------------------------

  ghost function WithoutCleaning(steps: seq<Step>): seq<Step> {
    if steps == [] then [] else
    var last := steps[|steps| - 1];
    WithoutCleaning(steps[..|steps| - 1]) + (if last.Clean? then [] else [last])
  }

  /** `s` is `u` without some records that had expired. */
  ghost predicate Thinned(s: State, u: State) {
    && s.used == u.used && s.cleared == u.cleared && s.now >= u.now
    && (forall k :: k in s.store ==> k in u.store && s.store[k] == u.store[k])
    && (forall k :: k in u.store ==> k in u.used)
    && (forall k :: k in u.store && k !in s.store ==> u.store[k].expiresAt <= s.now)
  }

  lemma {:induction false} StepKeepsThinned(cfg: Config, s: State, u: State, step: Step)
    requires Thinned(s, u) && Enabled(cfg, s, step)
    ensures step.Clean? ==> Thinned(Apply(cfg, s, step), u)
    ensures !step.Clean? ==> Enabled(cfg, u, step) && Thinned(Apply(cfg, s, step), Apply(cfg, u, step))
  {
    if step.Revoke? {
      assert s.now <= step.clock("") <= step.at;
    }
  }

  /** Removing every clean-up from a run changes no answer of IsActive, now or later. */
  lemma {:induction false} CleaningIsInvisible(cfg: Config, steps: seq<Step>, jti: string, now: int)
    requires Legal(cfg, INIT, steps) && now >= End(cfg, INIT, steps).now
    ensures Legal(cfg, INIT, WithoutCleaning(steps))
    ensures IsActive(End(cfg, INIT, steps).store, jti, now)
        <==> IsActive(End(cfg, INIT, WithoutCleaning(steps)).store, jti, now)
  {
    StaysThinned(cfg, steps);
  }

  lemma {:induction false} StaysThinned(cfg: Config, steps: seq<Step>)
    requires Legal(cfg, INIT, steps)
    ensures Legal(cfg, INIT, WithoutCleaning(steps))
    ensures Thinned(End(cfg, INIT, steps), End(cfg, INIT, WithoutCleaning(steps)))
    decreases |steps|
  {
    if steps != [] {
      var before, last := steps[..|steps| - 1], steps[|steps| - 1];
      StaysThinned(cfg, before);
      StepKeepsThinned(cfg, End(cfg, INIT, before), End(cfg, INIT, WithoutCleaning(before)), last);
      OneMoreStep(cfg, INIT, WithoutCleaning(before), last);
      assert WithoutCleaning(before) + [] == WithoutCleaning(before);
    }
  }

  // ----- the store stays small ------------------------------------------------------

  /** Tokens are issued at least `every` apart. */
  ghost predicate Paced(cfg: Config, steps: seq<Step>, every: int) {
    forall i, j :: 0 <= i < j < |steps| && steps[i].Issue? && steps[j].Issue? ==> steps[j].at >= steps[i].at + every
  }

  ghost predicate Spaced(s: Store, every: int) {
    forall j, k :: j in s && k in s && j != k ==>
      s[j].issuedAt + every <= s[k].issuedAt || s[k].issuedAt + every <= s[j].issuedAt
  }

  ghost predicate IssuedAt(steps: seq<Step>, at: int) {
    exists i :: 0 <= i < |steps| && steps[i].Issue? && steps[i].at == at
  }

  ghost predicate Stamped(cfg: Config, s: State, steps: seq<Step>) {
    forall k :: k in s.store ==>
      && s.store[k].expiresAt == s.store[k].issuedAt + cfg.ttl
      && s.store[k].issuedAt <= s.now
      && IssuedAt(steps, s.store[k].issuedAt)
  }

  lemma {:induction false} RunsAreSpaced(cfg: Config, steps: seq<Step>, every: int)
    requires Legal(cfg, INIT, steps) && Paced(cfg, steps, every) && every > 0
    ensures Spaced(End(cfg, INIT, steps).store, every) && Stamped(cfg, End(cfg, INIT, steps), steps)
    decreases |steps|
  {
    if steps != [] {
      var before, last := steps[..|steps| - 1], steps[|steps| - 1];
      RunsAreSpaced(cfg, before, every);
      forall at | IssuedAt(before, at)
        ensures IssuedAt(steps, at) && (last.Issue? ==> at + every <= last.at)
      {
        var i :| 0 <= i < |before| && before[i].Issue? && before[i].at == at;
        assert steps[i] == before[i];
      }
      assert last.Issue? ==> IssuedAt(steps, last.at);
      StepKeepsSpaced(cfg, End(cfg, INIT, before), before, last, steps, every);
    }
  }

  lemma {:induction false} StepKeepsSpaced(cfg: Config, s: State, before: seq<Step>, last: Step, steps: seq<Step>,
                                           every: int)
    requires Spaced(s.store, every) && Stamped(cfg, s, before) && Enabled(cfg, s, last)
    requires forall at :: IssuedAt(before, at) ==> IssuedAt(steps, at) && (last.Issue? ==> at + every <= last.at)
    requires last.Issue? ==> IssuedAt(steps, last.at)
    ensures Spaced(Apply(cfg, s, last).store, every) && Stamped(cfg, Apply(cfg, s, last), steps)
  {
    StepKeepsStamps(cfg, s, before, last, steps);
    hide IssuedAt;
    match last {
      case Issue(jti, at) =>
        forall k | k in s.store
          ensures s.store[k].issuedAt + every <= at
        {
          assert IssuedAt(before, s.store[k].issuedAt);
        }
        hide Stamped;
        IssueKeepsSpaced(s.store, every, jti, Record(jti, at, at + cfg.ttl, false));
      case Revoke(clock, at) =>
        hide Stamped;
        SameStamps(s.store, Revoked(s.store, clock), every);
      case Clean(at) =>
        hide Stamped;
        SameStamps(s.store, Cleaned(s.store, at - cfg.retention), every);
    }
  }

  lemma {:induction false} StepKeepsStamps(cfg: Config, s: State, before: seq<Step>, last: Step, steps: seq<Step>)
    requires Stamped(cfg, s, before) && Enabled(cfg, s, last)
    requires forall at :: IssuedAt(before, at) ==> IssuedAt(steps, at)
    requires last.Issue? ==> IssuedAt(steps, last.at)
    ensures Stamped(cfg, Apply(cfg, s, last), steps)
  {
    hide IssuedAt;
    if last.Revoke? { assert s.now <= last.clock("") <= last.at; }
    forall k | k in s.store
      ensures IssuedAt(steps, s.store[k].issuedAt)
    {
      assert IssuedAt(before, s.store[k].issuedAt);
    }
  }

  lemma {:induction false} IssueKeepsSpaced(s: Store, every: int, jti: string, rec: Record)
    requires Spaced(s, every) && forall k :: k in s ==> s[k].issuedAt + every <= rec.issuedAt
    ensures Spaced(s[jti := rec], every)
  {
  }

  lemma {:induction false} SameStamps(s: Store, u: Store, every: int)
    requires Spaced(s, every) && forall k :: k in u ==> k in s && u[k].issuedAt == s[k].issuedAt
    ensures Spaced(u, every)
  {
  }

  lemma {:induction false} Without(s: Store, k: string)
    requires k in s
    ensures |s - {k}| == |s| - 1 && (s - {k} == map[] ==> s.Keys == {k})
  {
    assert (s - {k}).Keys == s.Keys - {k};
    if s - {k} == map[] { assert (s - {k}).Keys == {}; }
  }

  lemma {:induction false} Newest(s: Store) returns (hi: string)
    requires s != map[]
    ensures hi in s && forall k :: k in s ==> s[k].issuedAt <= s[hi].issuedAt
    decreases |s|
  {
    var k :| k in s;
    var rest := s - {k};
    Without(s, k);
    hi := k;
    if rest != map[] {
      var top := Newest(rest);
      if s[top].issuedAt > s[k].issuedAt { hi := top; }
      assert forall j :: j in s && j != k ==> j in rest;
    }
  }

  lemma {:induction false} Farther(n: int, every: int, gap: int, step: int)
    requires gap >= (n - 2) * every && step >= every
    ensures gap + step >= (n - 1) * every
  {
    assert (n - 2) * every + every == (n - 1) * every;
  }

  lemma {:induction false} SpacedWithout(s: Store, hi: string, every: int)
    requires Spaced(s, every) && hi in s && every > 0 && forall k :: k in s ==> s[k].issuedAt <= s[hi].issuedAt
    ensures Spaced(s - {hi}, every)
    ensures forall k :: k in s - {hi} ==> s[k].issuedAt + every <= s[hi].issuedAt
  {
  }

  /** Among spaced records the newest and some other are far apart. */
  lemma {:induction false} Spread(s: Store, every: int) returns (lo: string, hi: string)
    requires s != map[] && Spaced(s, every) && every > 0
    ensures lo in s && hi in s && s[hi].issuedAt - s[lo].issuedAt >= (|s| - 1) * every
    decreases |s|
  {
    hi := Newest(s);
    var rest := s - {hi};
    Without(s, hi);
    SpacedWithout(s, hi, every);
    hide Spaced;
    lo := hi;
    if rest != map[] {
      var top;
      lo, top := Spread(rest, every);
      assert s[top].issuedAt + every <= s[hi].issuedAt;
      Farther(|s|, every, s[top].issuedAt - s[lo].issuedAt, s[hi].issuedAt - s[top].issuedAt);
    }
  }

  function RoundedUp(length: int, every: int): int
    requires every > 0
  {
    (length + every - 1) / every
  }

  lemma {:induction false} Cancel(n: int, m: int, d: int)
    requires d > 0 && n * d < m * d
    ensures n < m
  {
  }

  lemma {:induction false} Quotient(n: int, every: int, length: int)
    requires every > 0 && (n - 1) * every < length
    ensures n <= RoundedUp(length, every)
  {
    var q := (length + every - 1) / every;
    assert length + every - 1 < (q + 1) * every;
    assert n * every == (n - 1) * every + every;
    Cancel(n, q + 1, every);
  }

  lemma {:induction false} FewAreKept(kept: Store, ttl: int, retention: int, at: int, every: int)
    requires Spaced(kept, every) && every > 0 && ttl + retention >= 0
    requires forall k :: k in kept ==> at - retention - ttl < kept[k].issuedAt <= at
    ensures |kept| <= RoundedUp(ttl + retention, every)
  {
    hide RoundedUp;
    if kept != map[] {
      var lo, hi := Spread(kept, every);
    }
    Quotient(|kept|, every, ttl + retention);
  }

  /** If tokens are issued at least `every` apart, the store after a clean-up holds at most
      (ttl + retention) / every of them, rounded up, revoked or not. */
  lemma {:induction false} StoreStaysSmall(cfg: Config, steps: seq<Step>, at: int, every: int)
    requires Legal(cfg, INIT, steps + [Clean(at)]) && Paced(cfg, steps, every) && every > 0 && cfg.ttl > 0
    ensures |End(cfg, INIT, steps + [Clean(at)]).store| <= RoundedUp(cfg.ttl + cfg.retention, every)
  {
    hide Legal, End, Paced, RoundedUp;
    OneMoreStep(cfg, INIT, steps, Clean(at));
    RunsAreSpaced(cfg, steps, every);
    CleanedAreFew(cfg, End(cfg, INIT, steps), steps, at, every);
  }

  lemma {:induction false} CleanedAreFew(cfg: Config, s: State, steps: seq<Step>, at: int, every: int)
    requires Spaced(s.store, every) && Stamped(cfg, s, steps) && every > 0 && cfg.ttl > 0 && Enabled(cfg, s, Clean(at))
    ensures |Apply(cfg, s, Clean(at)).store| <= RoundedUp(cfg.ttl + cfg.retention, every)
  {
    hide RoundedUp, Spaced, Cleaned, Stamped;
    var kept := Cleaned(s.store, at - cfg.retention);
    assert Apply(cfg, s, Clean(at)).store == kept;
    CleanedSpaced(s.store, at - cfg.retention, every);
    KeptAreRecent(cfg, s, steps, at);
    FewAreKept(kept, cfg.ttl, cfg.retention, at, every);
  }

  lemma {:induction false} KeptAreRecent(cfg: Config, s: State, steps: seq<Step>, at: int)
    requires Stamped(cfg, s, steps) && Enabled(cfg, s, Clean(at))
    ensures var kept := Cleaned(s.store, at - cfg.retention);
            forall k :: k in kept ==> at - cfg.retention - cfg.ttl < kept[k].issuedAt <= at
  {
    hide IssuedAt;
  }

  lemma {:induction false} CleanedSpaced(s: Store, before: int, every: int)
    requires Spaced(s, every)
    ensures Spaced(Cleaned(s, before), every)
  {
  }
}
