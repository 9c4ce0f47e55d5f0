/** The limiter that every request and every inbound WebSocket message passes
    (internal/ratelimit/limiter.go): daily quota, then the token's bucket, then the bucket
    of the token and the client address. */
module RateLimiter {
  import opened Sums
  import opened TokenBucket

  // ----- keys (internal/store/redis.go) ---------------------------------------------

  function SuccessKey(token: string, day: string): string { "rpc:success:" + token + ":" + day }
  function TokenKey(token: string): string { "rpc:ratelimit:token:" + token }
  function TokenIPKey(token: string, ip: string): string { "rpc:ratelimit:tokenip:" + token + ":" + ip }
  function DailyKey(token: string, day: string): string { token + ":" + day }

  /** Days are written as 2006-01-02. */
  const DAY_LENGTH := 10

  /** No address turns one of the two token keys into the other. */
  predicate Separate(s: string, t: string) {
    s != t ==> !(s + ":" <= t) && !(t + ":" <= s)
  }

  lemma {:induction false} FamiliesDisjoint(s: string, t: string, ip: string)
    ensures TokenKey(s) != TokenIPKey(t, ip)
  {
    assert TokenKey(s)[19] == ':';
    assert TokenIPKey(t, ip)[19] == 'i';
  }

  lemma {:induction false} TokenKeyInjective(s: string, t: string)
    ensures TokenKey(s) == TokenKey(t) ==> s == t
  {
    assert TokenKey(s)[20..] == s && TokenKey(t)[20..] == t;
  }

  lemma {:induction false} CounterKeysInjective(s: string, d: string, t: string, e: string)
    requires |d| == |e| == DAY_LENGTH
    ensures SuccessKey(s, d) == SuccessKey(t, e) ==> s == t && d == e
    ensures DailyKey(s, d) == DailyKey(t, e) ==> s == t && d == e
  {
    assert SuccessKey(s, d)[12..] == DailyKey(s, d) && SuccessKey(t, e)[12..] == DailyKey(t, e);
    if DailyKey(s, d) == DailyKey(t, e) {
      assert DailyKey(s, d)[..|s|] == s && DailyKey(t, e)[..|t|] == t;
      assert DailyKey(s, d)[|s| + 1..] == d && DailyKey(t, e)[|t| + 1..] == e;
    }
  }

  /** Two tokens share an address bucket for some pair of addresses, neither empty, exactly
      when one key continues the other after a colon. */
  lemma {:induction false} SharedBucketIff(s: string, t: string)
    ensures (exists x, y :: x != "" && y != "" && TokenIPKey(s, x) == TokenIPKey(t, y)) && s != t <==> !Separate(s, t)
  {
    forall x, y | TokenIPKey(s, x) == TokenIPKey(t, y) && s != t
      ensures !Separate(s, t)
    {
      TokenIPKeyCollides(s, x, t, y);
    }
    if s != t && !Separate(s, t) {
      var x, y := SharedBucket(s, t, "1");
    }
  }

  /** Addresses that make the two tokens share a bucket. */
  lemma {:induction false} SharedBucket(s: string, t: string, ip: string) returns (x: string, y: string)
    requires s != t && !Separate(s, t) && ip != ""
    ensures x != "" && y != "" && TokenIPKey(s, x) == TokenIPKey(t, y)
  {
    if s + ":" <= t {
      var rest := t[|s| + 1..];
      x, y := rest + ":" + ip, ip;
      assert s + ":" + x == t + ":" + y;
    } else {
      var rest := s[|t| + 1..];
      x, y := ip, rest + ":" + ip;
      assert s + ":" + x == t + ":" + y;
    }
    assert TokenIPKey(s, x) == "rpc:ratelimit:tokenip:" + (s + ":" + x);
    assert TokenIPKey(t, y) == "rpc:ratelimit:tokenip:" + (t + ":" + y);
  }

  lemma {:induction false} TokenIPKeyCollides(s: string, x: string, t: string, y: string)
    requires TokenIPKey(s, x) == TokenIPKey(t, y)
    ensures s == t ==> x == y
    ensures s != t ==> !Separate(s, t)
  {
    var k := s + ":" + x;
    assert TokenIPKey(s, x)[22..] == k && TokenIPKey(t, y)[22..] == t + ":" + y;
    if |s| == |t| {
      assert s == k[..|s|] == t;
      assert x == k[|s| + 1..] == y;
    } else if |s| < |t| {
      assert s + ":" == k[..|s| + 1] == t[..|s| + 1];
    } else {
      assert t + ":" == k[..|t| + 1] == s[..|t| + 1];
    }
  }

  /** Keys without a colon, which is what the shipped configuration uses, are separate. */
  lemma {:induction false} NoColonSeparates(s: string, t: string)
    requires ':' !in s && ':' !in t
    ensures Separate(s, t)
  {
    assert (s + ":")[|s|] == ':' && (t + ":")[|t|] == ':';
  }

  // ----- one decision ---------------------------------------------------------------

  datatype Token = Token(key: string, tokenRate: int, tokenBurst: int,
                         ipRate: int, ipBurst: int, dailyQuota: int)

  /** One bucket check as the outside world answers it: the clock, whether the entry has
      expired, whether the client sees an error, whether the script ran all the same, and
      what the in-process fallback says if it is asked. */
  datatype Eval = Eval(now: int, forget: bool, failed: bool, ran: bool, local: bool)

  datatype Request = Request(token: Token, ip: string, day: string, readFails: bool,
                             tokenEval: Eval, ipEval: Eval)

  datatype Verdict = Allowed | DailyQuota | TokenRate | TokenIPRate

  /** What the limiter remembers: script hashes and success counters in Redis, and the
      success counters kept in process when there is no Redis. */
  datatype Memory = Memory(redisUp: bool, hashes: map<string, Bucket>,
                           counters: map<string, int>, daily: map<string, int>)

  function At(m: map<string, Bucket>, key: string): Option<Bucket> {
    if key in m then Some(m[key]) else None
  }

  function Count(m: map<string, int>, key: string): int {
    if key in m then m[key] else 0
  }

  function BurstOf(rps: int, burst: int): int { if burst <= 0 then rps else burst }

  function BucketAllows(m: Memory, key: string, rps: int, burst: int, e: Eval): bool {
    if rps <= 0 then true
    else if !m.redisUp || e.failed then e.local
    else Admit(Seen(At(m.hashes, key), e.now, e.forget), rps, BurstOf(rps, burst), e.now)
  }

  function AfterBucket(m: Memory, key: string, rps: int, burst: int, e: Eval): Memory {
    if rps <= 0 || !m.redisUp || (e.failed && !e.ran) then m
    else m.(hashes := m.hashes[key :=
      Stored(Seen(At(m.hashes, key), e.now, e.forget), rps, BurstOf(rps, burst), e.now)])
  }

  function Used(m: Memory, key: string, day: string): int {
    if m.redisUp then Count(m.counters, SuccessKey(key, day)) else Count(m.daily, DailyKey(key, day))
  }

  predicate QuotaSpent(quota: int, used: int) { quota > 0 && used >= quota }

  predicate OverQuota(m: Memory, token: Token, day: string, readFails: bool) {
    !(m.redisUp && readFails) && QuotaSpent(token.dailyQuota, Used(m, token.key, day))
  }

  predicate QuotaRejects(m: Memory, r: Request) {
    OverQuota(m, r.token, r.day, r.readFails)
  }

  predicate TokenAllows(m: Memory, r: Request) {
    BucketAllows(m, TokenKey(r.token.key), r.token.tokenRate, r.token.tokenBurst, r.tokenEval)
  }

  function AfterTokenBucket(m: Memory, r: Request): Memory {
    AfterBucket(m, TokenKey(r.token.key), r.token.tokenRate, r.token.tokenBurst, r.tokenEval)
  }

  predicate IPAllows(m: Memory, r: Request) {
    BucketAllows(m, TokenIPKey(r.token.key, r.ip), r.token.ipRate, r.token.ipBurst, r.ipEval)
  }

  function AfterIPBucket(m: Memory, r: Request): Memory {
    AfterBucket(m, TokenIPKey(r.token.key, r.ip), r.token.ipRate, r.token.ipBurst, r.ipEval)
  }

  function Decide(m: Memory, r: Request): Verdict {
    if QuotaRejects(m, r) then DailyQuota
    else if !TokenAllows(m, r) then TokenRate
    else if !IPAllows(AfterTokenBucket(m, r), r) then TokenIPRate
    else Allowed
  }

  function AfterAsk(m: Memory, r: Request): Memory {
    if QuotaRejects(m, r) then m
    else if !TokenAllows(m, r) then AfterTokenBucket(m, r)
    else AfterIPBucket(AfterTokenBucket(m, r), r)
  }

  function AfterCount(m: Memory, key: string, day: string, n: int): Memory {
    if n <= 0 then m
    else if m.redisUp then
      m.(counters := m.counters[SuccessKey(key, day) := Count(m.counters, SuccessKey(key, day)) + n])
    else
      m.(daily := m.daily[DailyKey(key, day) := Count(m.daily, DailyKey(key, day)) + n])
  }

  datatype Rejection = Rejection(tokenKey: string, chainID: string, clientIP: string, reason: Verdict)

  class Limiter {
    const redisUp: bool
    var hashes: map<string, Bucket>
    var counters: map<string, int>
    var daily: map<string, int>
    var rejections: seq<Rejection>

    constructor (redisUp: bool)
      ensures Kept() == Memory(redisUp, map[], map[], map[]) && rejections == []
    {
      this.redisUp := redisUp;
      hashes, counters, daily, rejections := map[], map[], map[], [];
    }

    function Kept(): Memory
      reads this
    {
      Memory(redisUp, hashes, counters, daily)
    }

    method Allow(r: Request, chainID: string) returns (v: Verdict)
      modifies this
      ensures v == Decide(old(Kept()), r)
      ensures Kept() == AfterAsk(old(Kept()), r)
      ensures rejections == if v == Allowed then old(rejections)
                            else old(rejections) + [Rejection(r.token.key, chainID, r.ip, v)]
    {
      var used, err := DailyUsed(r.token.key, r.day, r.readFails);
      if !err && r.token.dailyQuota > 0 && used >= r.token.dailyQuota {
        Reject(r, chainID, DailyQuota);
        return DailyQuota;
      }
      var ok := AllowBucket(TokenKey(r.token.key), r.token.tokenRate, r.token.tokenBurst, r.tokenEval);
      if !ok {
        Reject(r, chainID, TokenRate);
        return TokenRate;
      }
      ok := AllowBucket(TokenIPKey(r.token.key, r.ip), r.token.ipRate, r.token.ipBurst, r.ipEval);
      if !ok {
        Reject(r, chainID, TokenIPRate);
        return TokenIPRate;
      }
      return Allowed;
    }

    method IncrSuccess(key: string, day: string, n: int)
      modifies this`counters, this`daily
      ensures Kept() == AfterCount(old(Kept()), key, day, n)
    {
      if n <= 0 {
        return;
      }
      if redisUp {
        var k := SuccessKey(key, day);
        counters := counters[k := Count(counters, k) + n];
        return;
      }
      var k := DailyKey(key, day);
      daily := daily[k := Count(daily, k) + n];
    }

    method DailyUsed(key: string, day: string, readFails: bool) returns (used: int, err: bool)
      ensures err == (redisUp && readFails)
      ensures !err ==> used == Used(Kept(), key, day)
    {
      if redisUp {
        if readFails {
          return 0, true;
        }
        return Count(counters, SuccessKey(key, day)), false;
      }
      return Count(daily, DailyKey(key, day)), false;
    }

    method AllowBucket(key: string, rps: int, burst: int, e: Eval) returns (ok: bool)
      modifies this`hashes
      ensures ok == BucketAllows(old(Kept()), key, rps, burst, e)
      ensures Kept() == AfterBucket(old(Kept()), key, rps, burst, e)
      ensures rps <= 0 ==> ok
      ensures rps > 0 && (!redisUp || e.failed) ==> ok == e.local
      ensures rps > 0 && redisUp && !e.failed ==>
        ok == Admit(Seen(At(old(hashes), key), e.now, e.forget), rps, if burst > 0 then burst else rps, e.now)
      ensures rps > 0 && redisUp && (e.failed ==> e.ran) ==>
        hashes == old(hashes)[key := Stored(Seen(At(old(hashes), key), e.now, e.forget), rps,
                                            if burst > 0 then burst else rps, e.now)]
      ensures rps <= 0 || !redisUp || (e.failed && !e.ran) ==> hashes == old(hashes)
    {
      if rps <= 0 {
        return true;
      }
      var b := burst;
      if b <= 0 {
        b := rps;
      }
      if redisUp {
        if !e.failed || e.ran {
          ok := RedisAllow(key, rps, b, e.now, e.forget);
        }
        if e.failed {
          return e.local;
        }
        return ok;
      }
      return e.local;
    }

    /** The script, statement by statement. */
    method RedisAllow(key: string, rate: int, burst: int, now: int, forget: bool) returns (allowed: bool)
      modifies this`hashes
      ensures allowed == Admit(Seen(At(old(hashes), key), now, forget), rate, burst, now)
      ensures hashes == old(hashes)[key := Stored(Seen(At(old(hashes), key), now, forget), rate, burst, now)]
    {
      var data := Seen(At(hashes, key), now, forget);
      var tokens, ts := TOKEN * burst, now;
      if data.Some? {
        tokens, ts := data.value.tokens, data.value.ts;
      }
      var delta := Max(0, now - ts);
      var fill := delta * rate;
      tokens := Min(TOKEN * burst, tokens + fill);
      allowed := false;
      if tokens >= TOKEN {
        tokens := tokens - TOKEN;
        allowed := true;
      }
      hashes := hashes[key := Bucket(tokens, now)];
    }

    method Reject(r: Request, chainID: string, reason: Verdict)
      modifies this`rejections
      ensures rejections == old(rejections) + [Rejection(r.token.key, chainID, r.ip, reason)]
    {
      rejections := rejections + [Rejection(r.token.key, chainID, r.ip, reason)];
    }
  }
}
