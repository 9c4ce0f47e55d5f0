/** Runs of the limiter (internal/ratelimit/limiter.go:43-109).

    A request takes no lock over its stages. It reads the counter of a day, then asks the
    bucket of its token, then that of its token and address; for a bucket it reads the clock
    and has the script evaluated with what it read. Each of these is a step of its own here,
    and other requests, and successes being counted, come in between. A bucket that is
    switched off is given a reading too, which it does not use. */
module LimiterRuns {
  import opened Sums
  import opened TokenBucket
  import opened RateLimiter

  // ----- the machine ----------------------------------------------------------------

  /** A request is known by its token's key and a number. */
  type Id = (string, nat)

  datatype Flight =
    | AtToken(token: Token, ip: string, now: Option<int>)     // past the quota
    | AtAddress(token: Token, ip: string, now: Option<int>)   // past the token's bucket

  datatype State = State(m: Memory, flight: map<Id, Flight>)

  datatype Step =
    | Read(token: Token, n: nat, ip: string, day: string, fails: bool)
    | Clock(key: string, n: nat, now: int)
    | TokenScript(key: string, n: nat, e: Eval)
    | AddressScript(key: string, n: nat, e: Eval)
    | Success(key: string, day: string, units: int)
  {
    function Of(): string { if Read? then token.key else key }
    predicate Evaluates() { TokenScript? || AddressScript? }
    predicate WellFormed() { Read? || Success? ==> |day| == DAY_LENGTH }
  }

  /** One bucket check: the key, the plan it is made under, and its circumstances. */
  datatype Check = Check(key: string, rps: int, burst: int, e: Eval)

  predicate Allows(m: Memory, c: Check) { BucketAllows(m, c.key, c.rps, c.burst, c.e) }
  function Checked(m: Memory, c: Check): Memory { AfterBucket(m, c.key, c.rps, c.burst, c.e) }

  /** The check that a step makes, if its request has come that far and read this time. */
  function CheckOf(s: State, step: Step): Option<Check> {
    match step
    case TokenScript(key, n, e) =>
      if (key, n) in s.flight && s.flight[(key, n)].AtToken? && s.flight[(key, n)].now == Some(e.now) then
        var t := s.flight[(key, n)].token;
        Some(Check(TokenKey(key), t.tokenRate, t.tokenBurst, e))
      else None
    case AddressScript(key, n, e) =>
      if (key, n) in s.flight && s.flight[(key, n)].AtAddress? && s.flight[(key, n)].now == Some(e.now) then
        var f := s.flight[(key, n)];
        Some(Check(TokenIPKey(key, f.ip), f.token.ipRate, f.token.ipBurst, e))
      else None
    case _ => None
  }

  /** A step that does not apply changes nothing. */
  function Apply(s: State, step: Step): State {
    match step
    case Read(token, n, ip, day, fails) =>
      if (token.key, n) in s.flight || OverQuota(s.m, token, day, fails) then s
      else s.(flight := s.flight[(token.key, n) := AtToken(token, ip, None)])
    case Clock(key, n, now) =>
      if (key, n) !in s.flight || s.flight[(key, n)].now.Some? then s
      else s.(flight := s.flight[(key, n) := s.flight[(key, n)].(now := Some(now))])
    case TokenScript(key, n, _) =>
      var c := CheckOf(s, step);
      if c.None? then s else
      var f := s.flight[(key, n)];
      State(Checked(s.m, c.value),
            if Allows(s.m, c.value) then s.flight[(key, n) := AtAddress(f.token, f.ip, None)]
            else s.flight - {(key, n)})
    case AddressScript(key, n, _) =>
      var c := CheckOf(s, step);
      if c.None? then s else State(Checked(s.m, c.value), s.flight - {(key, n)})
    case Success(key, day, units) => s.(m := AfterCount(s.m, key, day, units))
  }

  /** The verdict that a step brings its request, with the client's address. */
  function Answer(s: State, step: Step): Option<(string, Verdict)> {
    match step
    case Read(token, n, ip, day, fails) =>
      if (token.key, n) !in s.flight && OverQuota(s.m, token, day, fails) then Some((ip, DailyQuota)) else None
    case TokenScript(key, n, _) =>
      var c := CheckOf(s, step);
      if c.Some? && !Allows(s.m, c.value) then Some((s.flight[(key, n)].ip, TokenRate)) else None
    case AddressScript(key, n, _) =>
      var c := CheckOf(s, step);
      if c.None? then None
      else Some((s.flight[(key, n)].ip, if Allows(s.m, c.value) then Allowed else TokenIPRate))
    case _ => None
  }

  ghost function After(m: Memory, steps: seq<Step>): State {
    if steps == [] then State(m, map[]) else Apply(After(m, steps[..|steps| - 1]), steps[|steps| - 1])
  }

  /** A request that nothing interrupts is what `Limiter.Allow` does in one call. */
  lemma {:induction false} UninterruptedIsAllow(s: State, r: Request, n: nat)
    requires (r.token.key, n) !in s.flight
    ensures var s1 := Apply(s, Read(r.token, n, r.ip, r.day, r.readFails));
            var s2 := Apply(s1, Clock(r.token.key, n, r.tokenEval.now));
            var token := TokenScript(r.token.key, n, r.tokenEval);
            var s3 := Apply(s2, token);
            var s4 := Apply(s3, Clock(r.token.key, n, r.ipEval.now));
            var address := AddressScript(r.token.key, n, r.ipEval);
            && Apply(s4, address) == State(AfterAsk(s.m, r), s.flight)
            && Decide(s.m, r) == if s1 == s then DailyQuota
                                 else if Answer(s2, token).Some? then Answer(s2, token).value.1
                                 else Answer(s4, address).value.1
  {
  }

  lemma {:induction false} RedisStaysUp(m: Memory, steps: seq<Step>)
    ensures After(m, steps).m.redisUp == m.redisUp
    decreases |steps|
  {
    if steps != [] {
      RedisStaysUp(m, steps[..|steps| - 1]);
    }
  }

  // ----- the daily counter ----------------------------------------------------------

  /** Successes counted for the token on the day. */
  ghost function Counted(steps: seq<Step>, key: string, day: string): int {
    if steps == [] then 0 else
    var last := steps[|steps| - 1];
    Counted(steps[..|steps| - 1], key, day)
    + (if last.Success? && last.key == key && last.day == day && last.units > 0 then last.units else 0)
  }

  /** In Redis and in process alike the counter of a token and a day is what it was plus
      every success counted for them since, whatever happens in between. */
  lemma {:induction false} CounterIsSum(m: Memory, steps: seq<Step>, key: string, day: string)
    requires |day| == DAY_LENGTH && forall step :: step in steps ==> step.WellFormed()
    ensures var s, n := After(m, steps).m, Counted(steps, key, day);
            if m.redisUp then
              && Count(s.counters, SuccessKey(key, day)) == Count(m.counters, SuccessKey(key, day)) + n
              && s.daily == m.daily
            else
              && Count(s.daily, DailyKey(key, day)) == Count(m.daily, DailyKey(key, day)) + n
              && s.counters == m.counters
    decreases |steps|
  {
    if steps != [] {
      var before, last := steps[..|steps| - 1], steps[|steps| - 1];
      CounterIsSum(m, before, key, day);
      RedisStaysUp(m, before);
      assert last in steps;
      if last.Success? {
        CounterKeysInjective(last.key, last.day, key, day);
      }
      hide Allows, Checked, OverQuota, SuccessKey, DailyKey, CheckOf;
      CountersChange(After(m, before), last);
    }
  }

  /** Only a success being counted touches the counters. */
  lemma {:induction false} CountersChange(s: State, step: Step)
    ensures var t := Apply(s, step).m;
            && t.redisUp == s.m.redisUp
            && if !step.Success? || step.units <= 0 then t.counters == s.m.counters && t.daily == s.m.daily
               else if s.m.redisUp then
                 && t.daily == s.m.daily
                 && (forall k :: Count(t.counters, k) == Count(s.m.counters, k)
                                   + if k == SuccessKey(step.key, step.day) then step.units else 0)
               else
                 && t.counters == s.m.counters
                 && (forall k :: Count(t.daily, k) == Count(s.m.daily, k)
                                   + if k == DailyKey(step.key, step.day) then step.units else 0)
  {
    hide SuccessKey, DailyKey, Allows, OverQuota;
  }

  /** A new request is refused by the quota if and only if its counter can be read, there is
      a quota, and the successes counted so far have reached it. */
  lemma {:induction false} QuotaIff(m: Memory, steps: seq<Step>, r: Step)
    requires r.Read? && r.WellFormed() && forall step :: step in steps ==> step.WellFormed()
    requires (r.token.key, r.n) !in After(m, steps).flight
    ensures var start := if m.redisUp then Count(m.counters, SuccessKey(r.token.key, r.day))
                         else Count(m.daily, DailyKey(r.token.key, r.day));
            Answer(After(m, steps), r) == Some((r.ip, DailyQuota)) <==>
              && !(m.redisUp && r.fails) && r.token.dailyQuota > 0
              && start + Counted(steps, r.token.key, r.day) >= r.token.dailyQuota
  {
    CounterIsSum(m, steps, r.token.key, r.day);
    RedisStaysUp(m, steps);
    hide SuccessKey, DailyKey, Counted;
  }

  // ----- isolation ------------------------------------------------------------------

  /** The steps of one token, in order. */
  ghost function Only(steps: seq<Step>, token: string): seq<Step> {
    if steps == [] then [] else
    var last := steps[|steps| - 1];
    Only(steps[..|steps| - 1], token) + (if last.Of() == token then [last] else [])
  }

  function FlightAt(s: State, token: string, n: nat): Option<Flight> {
    if (token, n) in s.flight then Some(s.flight[(token, n)]) else None
  }

  /** The two memories agree on everything kept for the token. */
  ghost predicate Remember(a: Memory, b: Memory, token: string) {
    && a.redisUp == b.redisUp
    && At(a.hashes, TokenKey(token)) == At(b.hashes, TokenKey(token))
    && (forall ip :: At(a.hashes, TokenIPKey(token, ip)) == At(b.hashes, TokenIPKey(token, ip)))
    && (forall day: string :: |day| == DAY_LENGTH ==>
          && Count(a.counters, SuccessKey(token, day)) == Count(b.counters, SuccessKey(token, day))
          && Count(a.daily, DailyKey(token, day)) == Count(b.daily, DailyKey(token, day)))
  }

  /** And the two states on its requests in flight. */
  ghost predicate Agree(a: State, b: State, token: string) {
    Remember(a.m, b.m, token) && forall n :: FlightAt(a, token, n) == FlightAt(b, token, n)
  }

  /** A bucket check looks at one key and changes no other. */
  lemma {:induction false} CheckIsLocal(a: Memory, b: Memory, c: Check)
    requires a.redisUp == b.redisUp && At(a.hashes, c.key) == At(b.hashes, c.key)
    ensures Allows(a, c) == Allows(b, c)
    ensures var x, y := Checked(a, c), Checked(b, c);
            && x == a.(hashes := x.hashes) && y == b.(hashes := y.hashes)
            && At(x.hashes, c.key) == At(y.hashes, c.key)
            && (forall k :: k != c.key ==> At(x.hashes, k) == At(a.hashes, k) && At(y.hashes, k) == At(b.hashes, k))
  {
  }

  lemma {:induction false} OthersCheck(m: Memory, c: Check, other: string, token: string)
    requires other != token && Separate(other, token)
    requires c.key == TokenKey(other) || exists ip :: c.key == TokenIPKey(other, ip)
    ensures Remember(Checked(m, c), m, token)
  {
    CheckIsLocal(m, m, c);
    TokenKeyInjective(other, token);
    forall ip
      ensures c.key != TokenIPKey(token, ip) && c.key != TokenKey(token)
    {
      FamiliesDisjoint(other, token, ip);
      if c.key != TokenKey(other) {
        var x :| c.key == TokenIPKey(other, x);
        FamiliesDisjoint(token, other, x);
        if c.key == TokenIPKey(token, ip) {
          TokenIPKeyCollides(other, x, token, ip);
        }
      }
    }
    assert c.key != TokenIPKey(token, "");
  }

  lemma {:induction false} OthersCount(m: Memory, other: string, on: string, units: int, token: string)
    requires other != token && |on| == DAY_LENGTH
    ensures Remember(AfterCount(m, other, on, units), m, token)
  {
    forall day: string | |day| == DAY_LENGTH
      ensures SuccessKey(other, on) != SuccessKey(token, day) && DailyKey(other, on) != DailyKey(token, day)
    {
      CounterKeysInjective(other, on, token, day);
    }
  }

  lemma {:induction false} OthersDoNotTouch(s: State, step: Step, token: string)
    requires step.WellFormed() && step.Of() != token && Separate(step.Of(), token)
    ensures Agree(Apply(s, step), s, token)
  {
    var c := CheckOf(s, step);
    if c.Some? {
      OthersCheck(s.m, c.value, step.Of(), token);
    } else if step.Success? {
      OthersCount(s.m, step.key, step.day, step.units, token);
    }
  }

  lemma {:induction false} OwnCheckAgrees(a: Memory, b: Memory, c: Check, token: string)
    requires Remember(a, b, token) && (c.key == TokenKey(token) || exists ip :: c.key == TokenIPKey(token, ip))
    ensures Allows(a, c) == Allows(b, c) && Remember(Checked(a, c), Checked(b, c), token)
  {
    CheckIsLocal(a, b, c);
  }

  lemma {:induction false} OwnCountAgrees(a: Memory, b: Memory, token: string, on: string, units: int)
    requires Remember(a, b, token) && |on| == DAY_LENGTH
    ensures Remember(AfterCount(a, token, on, units), AfterCount(b, token, on, units), token)
  {
    var x, y := AfterCount(a, token, on, units), AfterCount(b, token, on, units);
    forall day: string | |day| == DAY_LENGTH
      ensures Count(x.counters, SuccessKey(token, day)) == Count(y.counters, SuccessKey(token, day))
      ensures Count(x.daily, DailyKey(token, day)) == Count(y.daily, DailyKey(token, day))
    {
      CounterKeysInjective(token, day, token, on);
      hide SuccessKey, DailyKey;
    }
  }

  lemma {:induction false} OwnStepAgrees(a: State, b: State, step: Step)
    requires step.WellFormed() && Agree(a, b, step.Of())
    ensures Answer(a, step) == Answer(b, step)
    ensures Agree(Apply(a, step), Apply(b, step), step.Of())
  {
    hide Agree, Answer, Apply;
    if step.Success? {
      OwnSuccessAgrees(a, b, step);
    } else if step.Read? {
      OwnReadAgrees(a, b, step);
    } else if step.Clock? {
      OwnClockAgrees(a, b, step);
    } else {
      OwnScriptAgrees(a, b, step);
    }
  }

  lemma {:induction false} OwnSuccessAgrees(a: State, b: State, step: Step)
    requires step.WellFormed() && Agree(a, b, step.Of()) && step.Success?
    ensures Answer(a, step) == Answer(b, step)
    ensures Agree(Apply(a, step), Apply(b, step), step.Of())
  {
    OwnCountAgrees(a.m, b.m, step.Of(), step.day, step.units);
    assert FlightAt(a, step.Of(), 0) == FlightAt(b, step.Of(), 0);
    hide Remember, AfterCount;
    SameFlights(a, b, Apply(a, step), Apply(b, step), step.Of(), 0, FlightAt(a, step.Of(), 0));
  }

  lemma {:induction false} OwnReadAgrees(a: State, b: State, step: Step)
    requires step.WellFormed() && Agree(a, b, step.Of()) && step.Read?
    ensures Answer(a, step) == Answer(b, step)
    ensures Agree(Apply(a, step), Apply(b, step), step.Of())
  {
    assert FlightAt(a, step.Of(), step.n) == FlightAt(b, step.Of(), step.n);
    assert Used(a.m, step.Of(), step.day) == Used(b.m, step.Of(), step.day);
    hide Remember;
    SameFlights(a, b, Apply(a, step), Apply(b, step), step.Of(), step.n, FlightAt(Apply(a, step), step.Of(), step.n));
  }

  lemma {:induction false} OwnClockAgrees(a: State, b: State, step: Step)
    requires Agree(a, b, step.Of()) && step.Clock?
    ensures Answer(a, step) == Answer(b, step)
    ensures Agree(Apply(a, step), Apply(b, step), step.Of())
  {
    assert FlightAt(a, step.Of(), step.n) == FlightAt(b, step.Of(), step.n);
    hide Remember;
    SameFlights(a, b, Apply(a, step), Apply(b, step), step.Of(), step.n, FlightAt(Apply(a, step), step.Of(), step.n));
  }

  lemma {:induction false} OwnScriptAgrees(a: State, b: State, step: Step)
    requires step.Evaluates() && Agree(a, b, step.Of())
    ensures Answer(a, step) == Answer(b, step)
    ensures Agree(Apply(a, step), Apply(b, step), step.Of())
  {
    assert FlightAt(a, step.Of(), step.n) == FlightAt(b, step.Of(), step.n);
    var c := CheckOf(a, step);
    assert c == CheckOf(b, step);
    if c.Some? {
      OwnCheckAgrees(a.m, b.m, c.value, step.Of());
      hide Remember, Allows, Checked, TokenKey, TokenIPKey;
      SameFlights(a, b, Apply(a, step), Apply(b, step), step.Of(), step.n, FlightAt(Apply(a, step), step.Of(), step.n));
    }
  }

  lemma {:induction false} SameFlights(a: State, b: State, a': State, b': State, token: string, n: nat,
                                       f: Option<Flight>)
    requires Agree(a, b, token) && Remember(a'.m, b'.m, token)
    requires FlightAt(a', token, n) == f == FlightAt(b', token, n)
    requires forall id :: id != (token, n) ==>
               (id in a'.flight <==> id in a.flight) && (id in b'.flight <==> id in b.flight)
    requires forall id :: id != (token, n) && id in a.flight ==> a'.flight[id] == a.flight[id]
    requires forall id :: id != (token, n) && id in b.flight ==> b'.flight[id] == b.flight[id]
    ensures Agree(a', b', token)
  {
    hide Remember;
    forall k ensures FlightAt(a', token, k) == FlightAt(b', token, k) {
      assert FlightAt(a, token, k) == FlightAt(b, token, k);
      assert k != n ==> (token, k) != (token, n);
    }
  }

  lemma {:induction false} RestrictedRunAgrees(m: Memory, steps: seq<Step>, token: string)
    requires forall step :: step in steps ==> step.WellFormed() && Separate(step.Of(), token)
    ensures Agree(After(m, steps), After(m, Only(steps, token)), token)
    decreases |steps|
  {
    hide Apply, Answer, Agree;
    if steps == [] {
      AgreesWithItself(After(m, []), token);
    } else {
      var before, last := steps[..|steps| - 1], steps[|steps| - 1];
      assert last in steps;
      RestrictedRunAgrees(m, before, token);
      if last.Of() == token {
        OwnStepAgrees(After(m, before), After(m, Only(before, token)), last);
        assert (Only(before, token) + [last])[..|Only(before, token)|] == Only(before, token);
      } else {
        OthersDoNotTouch(After(m, before), last, token);
        assert Only(steps, token) == Only(before, token);
        AgreesOn(After(m, steps), After(m, before), After(m, Only(steps, token)), token);
      }
    }
  }

  lemma {:induction false} AgreesWithItself(s: State, token: string)
    ensures Agree(s, s, token)
  {
  }

  lemma {:induction false} AgreesOn(a: State, b: State, c: State, token: string)
    requires Agree(a, b, token) && Agree(b, c, token)
    ensures Agree(a, c, token)
  {
    forall n ensures FlightAt(a, token, n) == FlightAt(c, token, n) {
      assert FlightAt(a, token, n) == FlightAt(b, token, n);
    }
  }

  /** Every step of the token is answered as in the run restricted to the token's steps. */
  ghost predicate Isolated(m: Memory, steps: seq<Step>, step: Step) {
    Answer(After(m, steps), step) == Answer(After(m, Only(steps, step.Of())), step)
  }

  /** Among tokens whose keys are separate, a token is answered as if it were alone:
      however the requests interleave, and whatever fails or expires. */
  lemma {:induction false} Isolation(m: Memory, steps: seq<Step>, step: Step)
    requires step.WellFormed()
    requires forall other :: other in steps ==> other.WellFormed() && Separate(other.Of(), step.Of())
    ensures Isolated(m, steps, step)
  {
    RestrictedRunAgrees(m, steps, step.Of());
    OwnStepAgrees(After(m, steps), After(m, Only(steps, step.Of())), step);
  }

  /** The steps are of these two tokens and well formed. */
  ghost predicate OfTwo(steps: seq<Step>, s: string, t: string) {
    forall step :: step in steps ==> step.WellFormed() && (step.Of() == s || step.Of() == t)
  }

  /** Two tokens never influence each other if and only if neither key continues the other
      after a colon. */
  lemma {:induction false} IsolationIff(s: string, t: string)
    requires s != t
    ensures (forall m, steps, step :: OfTwo(steps + [step], s, t) ==> Isolated(m, steps, step)) <==> Separate(s, t)
  {
    if Separate(s, t) {
      forall m, steps, step | OfTwo(steps + [step], s, t)
        ensures Isolated(m, steps, step)
      {
        assert step in steps + [step];
        forall other | other in steps
          ensures other.WellFormed() && Separate(other.Of(), step.Of())
        {
          assert other in steps + [step];
        }
        Isolation(m, steps, step);
      }
    } else {
      var steps, step := Influence(s, t);
      assert !Isolated(FRESH, steps, step);
    }
  }

  /** One token for each address, and no limit besides. */
  function OnePerAddress(key: string): Token { Token(key, 0, 0, 1, 1, 0) }

  const FRESH := Memory(true, map[], map[], map[])
  const MIDNIGHT := Eval(0, false, false, true, false)

  /** A request up to its address bucket, and its last step. */
  function Approach(key: string, ip: string): seq<Step> {
    [Read(OnePerAddress(key), 0, ip, "2026-01-01", false),
     Clock(key, 0, MIDNIGHT.now), TokenScript(key, 0, MIDNIGHT), Clock(key, 0, MIDNIGHT.now)]
  }

  function Last(key: string): Step { AddressScript(key, 0, MIDNIGHT) }

  /** A request of `s` takes the only token of a bucket that `t` shares. */
  lemma {:induction false} Influence(s: string, t: string) returns (steps: seq<Step>, step: Step)
    requires s != t && !Separate(s, t)
    ensures OfTwo(steps + [step], s, t) && !Isolated(FRESH, steps, step)
  {
    var x, y := SharedBucket(s, t, "1");
    var others := Approach(s, x) + [Last(s)];
    steps, step := others + Approach(t, y), Last(t);
    assert OfTwo(steps + [step], s, t);
    OnlyOwn(others, Approach(t, y), t);
    hide Separate, Approach, Answer, Apply, After, Only, TokenIPKey;
    TakesIt(s, x);
    NoSteps(FRESH);
    Approaches(FRESH, others, t, y);
    Approaches(FRESH, [], t, y);
    assert [] + Approach(t, y) == Approach(t, y);
    LastAnswer(After(FRESH, others).m, t, y);
    LastAnswer(FRESH, t, y);
  }

  lemma {:induction false} LastAnswer(m: Memory, t: string, y: string)
    requires m.redisUp && (At(m.hashes, TokenIPKey(t, y)) == None
                           || At(m.hashes, TokenIPKey(t, y)) == Some(Bucket(0, 0)))
    ensures Answer(State(m, map[(t, 0) := AtAddress(OnePerAddress(t), y, Some(MIDNIGHT.now))]), Last(t))
         == Some((y, if At(m.hashes, TokenIPKey(t, y)) == None then Allowed else TokenIPRate))
  {
  }

  lemma {:induction false} NoSteps(m: Memory)
    ensures After(m, []) == State(m, map[])
  {
  }

  lemma {:induction false} OneMore(m: Memory, steps: seq<Step>, step: Step)
    ensures After(m, steps + [step]) == Apply(After(m, steps), step)
  {
    assert (steps + [step])[..|steps|] == steps;
  }

  lemma {:induction false} Approaches(m: Memory, before: seq<Step>, t: string, y: string)
    requires After(m, before).flight == map[]
    ensures After(m, before + Approach(t, y))
         == State(After(m, before).m, map[(t, 0) := AtAddress(OnePerAddress(t), y, Some(MIDNIGHT.now))])
  {
    var own := Approach(t, y);
    OneMore(m, before, own[0]);
    OneMore(m, before + [own[0]], own[1]);
    OneMore(m, before + [own[0]] + [own[1]], own[2]);
    OneMore(m, before + [own[0]] + [own[1]] + [own[2]], own[3]);
    assert before + [own[0]] + [own[1]] + [own[2]] + [own[3]] == before + own;
  }

  lemma {:induction false} TakesIt(s: string, x: string)
    ensures After(FRESH, Approach(s, x) + [Last(s)])
              == State(FRESH.(hashes := map[TokenIPKey(s, x) := Bucket(0, 0)]), map[])
  {
    NoSteps(FRESH);
    Approaches(FRESH, [], s, x);
    assert [] + Approach(s, x) == Approach(s, x);
    OneMore(FRESH, Approach(s, x), Last(s));
  }

  lemma {:induction false} OnlyOwn(others: seq<Step>, own: seq<Step>, t: string)
    requires forall step :: step in others ==> step.Of() != t
    requires forall step :: step in own ==> step.Of() == t
    ensures Only(others + own, t) == own
    decreases |own|
  {
    if own == [] {
      assert others + own == others;
      OnlyNone(others, t);
    } else {
      var before, last := own[..|own| - 1], own[|own| - 1];
      assert last in own;
      OnlyOwn(others, before, t);
      var steps := others + own;
      assert steps[..|steps| - 1] == others + before && steps[|steps| - 1] == last;
      assert own == before + [last];
    }
  }

  lemma {:induction false} OnlyNone(others: seq<Step>, t: string)
    requires forall step :: step in others ==> step.Of() != t
    ensures Only(others, t) == []
    decreases |others|
  {
    if others != [] {
      assert others[|others| - 1] in others;
      OnlyNone(others[..|others| - 1], t);
    }
  }

  // ----- the buckets behind the decisions -------------------------------------------

  /** The script evaluation that a step makes under key `k`, if it makes one: also when the
      client sees an error although the script ran. */
  ghost function CallOn(s: State, step: Step, k: string): Option<Call> {
    var c := CheckOf(s, step);
    if c.Some? && c.value.key == k && c.value.rps > 0 && s.m.redisUp && (!c.value.e.failed || c.value.e.ran)
    then Some(Call(c.value.e.now, c.value.e.forget)) else None
  }

  /** The step gets its request past the bucket under key `k`, by the word of the script or,
      if that failed, of the fallback. */
  ghost predicate Passes(s: State, step: Step, k: string, fallback: bool) {
    var c := CheckOf(s, step);
    c.Some? && c.value.key == k && Allows(s.m, c.value) && c.value.e.failed == fallback
  }

  ghost function Calls(m: Memory, steps: seq<Step>, k: string): seq<Call> {
    if steps == [] then [] else
    var before := steps[..|steps| - 1];
    var call := CallOn(After(m, before), steps[|steps| - 1], k);
    Calls(m, before, k) + (if call.Some? then [call.value] else [])
  }

  /** Passes of the bucket under key `k` from index `a` on. */
  ghost function Passed(m: Memory, steps: seq<Step>, a: nat, k: string, fallback: bool): nat
    requires a <= |steps|
  {
    if |steps| == a then 0 else
    var before := steps[..|steps| - 1];
    Passed(m, before, a, k, fallback) + (if Passes(After(m, before), steps[|steps| - 1], k, fallback) then 1 else 0)
  }

  /** Whoever uses key `k` does so under this rate and burst. */
  ghost predicate Planned(token: Token, key: string, ip: string, k: string, rate: int, burst: int) {
    && (k == TokenKey(key) ==> token.tokenRate == rate && BurstOf(rate, token.tokenBurst) == burst)
    && (k == TokenIPKey(key, ip) ==> token.ipRate == rate && BurstOf(rate, token.ipBurst) == burst)
  }

  ghost predicate PlanOn(steps: seq<Step>, k: string, rate: int, burst: int) {
    forall step :: step in steps && step.Read? ==> Planned(step.token, step.token.key, step.ip, k, rate, burst)
  }

  lemma {:induction false} FlightsArePlanned(m: Memory, steps: seq<Step>, k: string, rate: int, burst: int)
    requires PlanOn(steps, k, rate, burst)
    ensures forall id :: id in After(m, steps).flight ==>
              Planned(After(m, steps).flight[id].token, id.0, After(m, steps).flight[id].ip, k, rate, burst)
    decreases |steps|
  {
    hide Planned, Checked, Allows, OverQuota;
    if steps != [] {
      FlightsArePlanned(m, steps[..|steps| - 1], k, rate, burst);
      assert steps[|steps| - 1] in steps;
    }
  }

  lemma {:induction false} SlotStep(s: State, step: Step, k: string, rate: int, burst: int)
    requires s.m.redisUp && rate >= 1
    requires forall id :: id in s.flight ==> Planned(s.flight[id].token, id.0, s.flight[id].ip, k, rate, burst)
    ensures var call := CallOn(s, step, k);
            && (call.None? ==> At(Apply(s, step).m.hashes, k) == At(s.m.hashes, k) && !Passes(s, step, k, false))
            && (call.Some? ==>
                  var found := Seen(At(s.m.hashes, k), call.value.now, call.value.forget);
                  && At(Apply(s, step).m.hashes, k) == Some(Stored(found, rate, burst, call.value.now))
                  && (Passes(s, step, k, false) ==> Admit(found, rate, burst, call.value.now)))
  {
    hide Seen, Stored, Admit, TokenKey, TokenIPKey;
    var c := CheckOf(s, step);
    if c.Some? {
      assert Planned(s.flight[(step.key, step.n)].token, step.key, s.flight[(step.key, step.n)].ip, k, rate, burst);
    }
  }

  /** Behind every key the limiter drives one token bucket run, whatever interleaves and
      whatever fails. */
  lemma {:induction false} KeyIsOneRun(m: Memory, steps: seq<Step>, k: string, rate: int, burst: int)
    requires m.redisUp && At(m.hashes, k) == None && rate >= 1 && PlanOn(steps, k, rate, burst)
    ensures At(After(m, steps).m.hashes, k) == Run(rate, burst, Calls(m, steps, k)).Slot(|Calls(m, steps, k)|)
    decreases |steps|
  {
    if steps != [] {
      var before, last := steps[..|steps| - 1], steps[|steps| - 1];
      assert PlanOn(before, k, rate, burst);
      KeyIsOneRun(m, before, k, rate, burst);
      RedisStaysUp(m, before);
      FlightsArePlanned(m, before, k, rate, burst);
      SlotStep(After(m, before), last, k, rate, burst);
      hide Apply, CallOn, Passes, PlanOn, Planned;
      RunGrows(Run(rate, burst, Calls(m, before, k)), CallOn(After(m, before), last, k));
      assert Calls(m, before, k) + [] == Calls(m, before, k);
    }
  }

  lemma {:induction false} RunGrows(r: Run, call: Option<Call>)
    ensures call.Some? ==>
              var s := r.(calls := r.calls + [call.value]);
              var found := Seen(r.Slot(|r.calls|), call.value.now, call.value.forget);
              && s.Slot(|s.calls|) == Some(Stored(found, r.rate, r.burst, call.value.now))
              && s.Admits(|r.calls|) == Admit(found, r.rate, r.burst, call.value.now)
              && forall i :: 0 <= i <= |r.calls| ==>
                   s.Admitted(i, |s.calls|) == r.Admitted(i, |r.calls|) + (if s.Admits(|r.calls|) then 1 else 0)
  {
    if call.Some? {
      forall i | 0 <= i <= |r.calls|
        ensures r.(calls := r.calls + [call.value]).Admitted(i, |r.calls|) == r.Admitted(i, |r.calls|)
      {
        PrefixStable(r, call.value, i, |r.calls|);
      }
      PrefixStable(r, call.value, |r.calls|, |r.calls|);
    }
  }

  /** Every pass by the word of the script is a call that the key's run admits. */
  lemma {:induction false} PassedAreAdmitted(m: Memory, steps: seq<Step>, a: nat, k: string, rate: int, burst: int)
    requires m.redisUp && At(m.hashes, k) == None && rate >= 1 && a <= |steps| && PlanOn(steps, k, rate, burst)
    ensures |Calls(m, steps[..a], k)| <= |Calls(m, steps, k)|
    ensures Passed(m, steps, a, k, false)
         <= Run(rate, burst, Calls(m, steps, k)).Admitted(|Calls(m, steps[..a], k)|, |Calls(m, steps, k)|)
    decreases |steps|
  {
    if |steps| == a {
      assert steps[..a] == steps;
    } else {
      var before, last := steps[..|steps| - 1], steps[|steps| - 1];
      assert PlanOn(before, k, rate, burst);
      PassedAreAdmitted(m, before, a, k, rate, burst);
      assert before[..a] == steps[..a];
      KeyIsOneRun(m, before, k, rate, burst);
      RedisStaysUp(m, before);
      FlightsArePlanned(m, before, k, rate, burst);
      SlotStep(After(m, before), last, k, rate, burst);
      hide Apply, CallOn, Passes, PlanOn, Planned;
      RunGrows(Run(rate, burst, Calls(m, before, k)), CallOn(After(m, before), last, k));
      assert Calls(m, before, k) + [] == Calls(m, before, k);
    }
  }
}
