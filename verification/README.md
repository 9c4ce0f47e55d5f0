# Verified model of the RPC node gateway

This project models the stateful middle of the gateway and proves what it keeps over every
run: the rate limiter, the upstream balancer, the statistics collector, the two handlers
that tie them together, the billing tables, admin token rotation, and the bookkeeping of
WebSocket sessions. `dafny verify dfyconfig.toml` checks all of it.

Objects that the program updates in place are classes with the same fields and loops; each
method is proved against functions on values, and the theorems are about those functions
and about the machines built from them. In the machines for the limiter, the quota, health
reports, the collector and its snapshots, the pumps of a WebSocket session, connection slots
and the token store, every atomic operation or locked section is a step of its own, and the
theorems hold for every interleaving of those steps; what a theorem assumes about the clock,
and about how many requests are under way, is in its row. The theorems on fairness, failover,
reloads, handlers and tables are about runs of whole operations. The outside world (upstream
replies, clocks, fresh ids, expiry of Redis entries, database faults) enters as parameters
over which the theorems are quantified.

| file | contents |
|---|---|
| `Sums.dfy` | sums over finite maps, sizes, products |
| `TokenBucket.dfy` | the Redis script as a machine on one key |
| `RateLimiter.dfy` | keys, one decision, the `Limiter` class |
| `LimiterRuns.dfy` | the two-level limiter with requests interleaving between the counter, each reading of the clock and each script |
| `LimiterBounds.dfy`, `LimiterSwing.dfy` | what the two levels admit in a window, for any clock and for requests that overlap, and a run that needs the factor |
| `QuotaProtocol.dfy` | the daily quota with requests in flight and across midnight |
| `RoundRobin.dfy` | the modular arithmetic of weighted turns |
| `NodeHealth.dfy` | health hysteresis with int32 counters, sequential and interleaved |
| `Balancer.dfy`, `Registry.dfy` | the `Node`, `Pool` and `Registry` classes, fairness, reloads |
| `Failover.dfy`, `FailoverTight.dfy` | pick, retry and report of a request, what dead upstreams can cost, and a run that costs as much |
| `Billing.dfy` | the billing event |
| `Metering.dfy`, `MeteringLaws.dfy` | counting as a concurrent machine, and its laws |
| `Collector.dfy` | the `Collector` class |
| `Gateway.dfy` | the HTTP handler |
| `WsSession.dfy`, `WsProtocol.dfy`, `ConnGuard.dfy` | a WebSocket session, its two pumps interleaved, connection slots |
| `Ledger.dfy` | the transactions over `billing_events` and `usage_daily`, and the publishers |
| `Conservation.dfy` | requests, statistics, counters, events and tables agree |
| `Traffic.dfy` | middleware, HTTP handler and sessions run together on one set of books |
| `AdminJwt.dfy` | the in-process token store and its rotation |

## Conventions

Times of the token bucket are milliseconds and levels thousandths of a token, so that the
script's arithmetic is exact on integers. `forget` says that an expired Redis entry is gone;
it has an effect only if the reading is 2000 ms or more after the one last written. The
theorems on windows take one clock for Redis and gateway. `Travel` and `Forward` count the
forward movement of its readings from one evaluation of the script to the next, and bounds
in them hold for any clock. Bounds in elapsed time say what they assume: that evaluations
come in the order of their readings (`Monotone`, `InOrder`), or that the clock does not step
back from one reading to the next and at most K requests hold a reading at a time (`Paced`).
A group of counters is a map from fields to integers in which a missing field is zero. A
recorder's *debt* is what it has still to add; it pays each field globally first, then to the
token, then to the chain. The methods of `Collector` carry the same debt as ghost values, so
an addition in another order, or of another amount, does not verify. All lemmas switch off
automatic induction: every induction is written out.

## Where the code does less than it seems to

- `docs/rate-limiting.md:75` presents the burst as the capacity of the bucket and
  `*_per_second` as its fill rate. Because the entry expires after two seconds, the bound
  burst + rate * seconds holds for all runs exactly when burst <= 2 * rate
  (`TokenBucket.RateBoundIff`); otherwise only the weaker bound of `WindowBound` does.
- The script writes a clock that stepped back into the entry, so the same second refills
  twice. With burst <= 2 * rate, burst + rate * (latest minus earliest reading) bounds every
  window of every run whose clock steps back at most d at a time exactly when d = 0
  (`TokenBucket.StepBackBoundIff`).
- Token keys that continue one another after a colon can share an address bucket;
  configuration forbids only the slash. Two tokens never influence each other exactly when
  neither key continues the other that way (`LimiterRuns.IsolationIff`).
- The daily quota is checked before and counted after forwarding. It is never overshot
  exactly when K * B <= 1 (`QuotaProtocol.NeverOverIff`); the overshoot is at most K * B - 1,
  and that is reached.
- `docs/database.md:83` says that repeated delivery does not count twice. That is so exactly
  for billable events; a free one counts once per delivery (`Ledger.RedeliveryIsHarmlessIff`).
- The clock is read before the script is evaluated, so requests that overlap can be evaluated
  against the order of their readings, and then the same second refills more than once. With
  at most K requests holding a reading for a key, the readings of a window move forward by at
  most K times its length, and no smaller factor will do (`LimiterSwing.OverlapIff`).
- `subN` is not the number of live subscriptions, and `max_subscriptions_per_connection`
  does not bound them. There are three causes: subscribes sent before the first is confirmed
  all pass the check; any error-free reply to `eth_unsubscribe` takes one off, also if it
  cancelled nothing; and confirmations in a batch, or to a request no longer pending, are not
  counted. For a client that subscribes, the configured limit holds exactly when there is at
  most one unanswered subscribe and neither such a reply nor such a confirmation
  (`WsProtocol.ConfiguredLimitIff`); without the last two, K unanswered subscribes allow
  K - 1 more (`WsProtocol.LimitHoldsIff`).
- In the other direction a subscription that ends unseen keeps its place in `subN`. A client
  that subscribes is never refused with room left exactly when no subscription ends that way
  (`WsProtocol.RoomIsUsedIff`).

## Model

| member | source | states |
|---|---|---|
| TokenBucket.WindowBound | internal/ratelimit/limiter.go:112-135 | for any clock and any expiry moments, the calls one key admits in any window are at most burst + max(rate, burst/2) * seconds the clock moved forward |
| TokenBucket.ExpiryIsInvisible | internal/ratelimit/limiter.go:117-133 | with burst <= 2 * rate the level a call meets is the one the stored entry would give had it never expired |
| TokenBucket.SameDecisions | internal/ratelimit/limiter.go:117-133 | with burst <= 2 * rate the expiring bucket decides every call as one that never expires, for every choice of expiry moments |
| TokenBucket.LevelIsLeastBudget | internal/ratelimit/limiter.go:117-131 | with burst <= 2 * rate the level before call n is the minimum over all i <= n of burst + rate * time since call i - calls admitted since, and is attained |
| TokenBucket.RefusedExactly | internal/ratelimit/limiter.go:117-131 | with burst <= 2 * rate a call is refused if and only if admitting it would break burst + rate * time on some window ending there |
| TokenBucket.RateBoundIff | internal/ratelimit/limiter.go:112-135 | burst + rate * time bounds every window of every run with a monotone clock if and only if burst <= 2 * rate |
| TokenBucket.StepBackBoundIff | internal/ratelimit/limiter.go:124-132 | with burst <= 2 * rate, burst + rate * (latest minus earliest reading) bounds every window of every run whose clock steps back at most d at a time if and only if d = 0 |
| TokenBucket.SteppingBackRefillsTwice | internal/ratelimit/limiter.go:124-132 | a concrete run whose clock steps back and ends where it started, with burst 1, that admits three calls |
| TokenBucket.WindowBoundBetween | internal/ratelimit/limiter.go:112-135 | the window bound between two clock times, for a monotone clock |
| RateLimiter.SharedBucketIff | internal/store/redis.go:60-62 | two tokens share an address bucket for some pair of non-empty addresses if and only if one key continues the other after a colon |
| RateLimiter.CounterKeysInjective | internal/store/redis.go:50-52 | daily counter keys, in Redis and in process, determine token and day |
| RateLimiter.FamiliesDisjoint | internal/store/redis.go:55-62 | no token bucket key is an address bucket key |
| RateLimiter.NoColonSeparates | internal/store/redis.go:60-62 | tokens without a colon never share a bucket |
| RateLimiter.Limiter.Allow | internal/ratelimit/limiter.go:43-63 | verdict, new memory and rejection log of one check, over all three stages and their errors, are those of the specification functions |
| RateLimiter.Limiter.AllowBucket | internal/ratelimit/limiter.go:94-109 | no rate admits all; without Redis, or if the evaluation fails, the fallback decides; otherwise the script, with the burst or, if there is none, the rate |
| RateLimiter.Limiter.RedisAllow | internal/ratelimit/limiter.go:111-145 | the script, statement by statement, decides and stores what the bucket functions say |
| RateLimiter.Limiter.IncrSuccess | internal/ratelimit/limiter.go:65-79 | a success is counted as the runs of CounterIsSum count it, in Redis or in process, and nothing else changes |
| RateLimiter.Limiter.DailyUsed | internal/ratelimit/limiter.go:81-92 | the counter read, or an error only if Redis fails |
| LimiterRuns.UninterruptedIsAllow | internal/ratelimit/limiter.go:43-63 | the five steps of a request that nothing interrupts, counter, clock, script, clock, script, decide and change what one call of Allow does |
| LimiterRuns.CounterIsSum | internal/ratelimit/limiter.go:65-92 | over any run, in Redis and in process, the counter of a token and a day is what it was plus the sum of the positive successes counted for them |
| LimiterRuns.QuotaIff | internal/ratelimit/limiter.go:43-50 | a new request is refused by the quota if and only if its counter can be read, there is a quota, and that sum has reached it |
| LimiterRuns.Isolation | internal/ratelimit/limiter.go:43-137 | however requests interleave between their steps, among separate keys every step of one token is answered as in the run restricted to that token's steps |
| LimiterRuns.IsolationIff | internal/store/redis.go:60-62 | two tokens never influence an answer of each other, in any run, if and only if neither key continues the other after a colon |
| LimiterRuns.KeyIsOneRun | internal/ratelimit/limiter.go:94-135 | whatever interleaves and whatever fails, one key's entry is that of the bucket machine run on the evaluations that reach the key |
| LimiterRuns.PassedAreAdmitted | internal/ratelimit/limiter.go:94-135 | passes of a key by the word of the script are at most the calls that its run admits |
| LimiterBounds.KeyBoundAnyClock | internal/ratelimit/limiter.go:94-137 | the window bound for one key inside any run of the limiter, for any clock and any overlap of requests, in the forward movement of the readings between evaluations |
| LimiterBounds.OverlapForward | internal/ratelimit/limiter.go:136-137 | with a clock that does not step back and at most K requests holding a reading for the key, the readings move forward between evaluations by at most K times the length of the window |
| LimiterSwing.OverlapIff | internal/ratelimit/limiter.go:136-137 | under these assumptions c times the length bounds the forward movement of every window of every run if and only if K <= c |
| LimiterBounds.InOrderForward | internal/ratelimit/limiter.go:136-137 | if evaluations come in the order of their readings, they move forward by at most the length of the window, however many requests overlap |
| LimiterBounds.KeyBound | internal/ratelimit/limiter.go:94-137 | the window bound between two clock times with at most K requests holding a reading for the key at a time: burst + K * max(rate, burst/2) * seconds, with K = 1 if evaluations come in order |
| LimiterBounds.PassesSplit | internal/ratelimit/limiter.go:52-63 | passes of the token bucket are the admitted calls, those the address bucket rejects, and the change in the number of requests between the two buckets |
| LimiterBounds.TwoLevelBound | internal/ratelimit/limiter.go:52-63 | in any window, for any clock, what is admitted, rejected by an address bucket or left between the buckets keeps the token's bound beyond what was between them at its start, and what one address is admitted keeps the address bound, each in the forward movement of that key's readings; passes on the word of the fallback come on top |
| LimiterBounds.TwoLevelBoundInTime | internal/ratelimit/limiter.go:52-63 | the same in elapsed time, with the factor K for requests that overlap |
| LimiterBounds.SumOfAddressBounds | internal/ratelimit/limiter.go:52-63 | for any clock, admitted calls in a window are at most the sum of the bounds of the addresses that called, and the passes on the word of the fallback |
| LimiterBounds.SumOfAddressBoundsInTime | internal/ratelimit/limiter.go:52-63 | the same in elapsed time, with the factor K for requests that overlap |
| QuotaProtocol.QuotaOvershootBound | internal/ratelimit/limiter.go:43-92 | with K requests in flight and at most B successes each, no day's counter exceeds quota - 1 + K * B, in every interleaving and across midnight |
| QuotaProtocol.StepKeepsInv | internal/ratelimit/limiter.go:43-92 | each step keeps every day's counter plus B for each request that may still add to it within the bound |
| QuotaProtocol.BoundIsReached | internal/proxy/handler.go:139-140 | some interleaving reaches quota - 1 + K * B |
| QuotaProtocol.NeverOverIff | internal/ratelimit/limiter.go:43-92 | every run keeps every day within the quota if and only if K * B <= 1 |
| RoundRobin.TurnsAndRest | internal/balancer/balancer.go:222-229 | n consecutive turns of a counter mod W hit an interval of length w between floor(n/W) * w and ceil(n/W) * w times, from any start |
| RoundRobin.NoStarvation | internal/balancer/balancer.go:222-229 | any W - w + 1 consecutive turns hit it |
| NodeHealth.HealthIsHistory | internal/balancer/balancer.go:233-250 | after any reports a node is healthy if and only if the last completed streak was one of successes, or there was none |
| NodeHealth.CountersAreStreaks | internal/balancer/balancer.go:233-250 | the counter that matters in each state is the length of the current streak, below its threshold |
| NodeHealth.WrapAroundIsInvisible | internal/balancer/balancer.go:233-250 | the machine with int32 wrap-around has the same health as one with unbounded counters |
| NodeHealth.HealthChangesAreJustified | internal/balancer/balancer.go:233-250 | under every interleaving of the atomic operations, a store of unhealthy follows unhealthyThreshold failure adds with no reset between them, and a store of healthy likewise |
| NodeHealth.UninterruptedReport | internal/balancer/balancer.go:233-250 | a report that runs alone through its atomic operations does what the sequential function says |
| Balancer.Fairness | internal/balancer/balancer.go:202-231 | N picks with the same candidates of total weight W give each node between floor(N/W) and ceil(N/W) times its weight, for Next, NextWS, or a mix with equal candidates |
| Balancer.ConfiguredFairness | internal/balancer/balancer.go:88-109 | in a pool freshly started or reloaded, q turns of as many HTTP picks as the configured weights add up to give each node exactly q times its configured weight, one if that is not positive |
| Balancer.HealthyShare | internal/balancer/balancer.go:202-231 | q turns among the healthy nodes, over WebSocket those with an address, give each exactly q times its weight |
| Balancer.EqualShare | internal/balancer/balancer.go:214-220 | with no healthy node, q turns of HTTP picks give every node exactly q |
| Balancer.FallbackShare | internal/balancer/balancer.go:341-348 | with no healthy node that has a WebSocket address, q turns give every node that has one exactly q times its weight |
| Balancer.PicksTheBest | internal/balancer/balancer.go:202-360 | a healthy node that serves the transport is picked if there is one, else any that serves it, and none if and only if there is none |
| Balancer.EveryNodeIsPicked | internal/balancer/balancer.go:202-231 | every W - w + 1 consecutive picks include the node |
| Balancer.PicksStepThroughPlaces | internal/balancer/balancer.go:222-231 | the nth pick falls on place (rr + n) mod W |
| Balancer.Scan | internal/balancer/balancer.go:223-230 | the scan returns the candidate whose interval holds the counter, and its last line is never reached |
| Balancer.Pool.Next | internal/balancer/balancer.go:202-231 | the loop over healthy nodes, with its fallback to all nodes, takes the turn of the specification |
| Balancer.Pool.NextWS | internal/balancer/balancer.go:324-360 | the same for nodes with a WebSocket address, with its fallback |
| Balancer.Pool.ReportSuccess | internal/balancer/balancer.go:233-241 | changes one node's health as specified, and no node of the pool if the node was replaced |
| Balancer.Pool.ReportFailure | internal/balancer/balancer.go:243-250 | changes one node's health as specified, and no node of the pool if the node was replaced |
| Balancer.Pool.CheckAll | internal/balancer/balancer.go:266-278 | one round of probes reports each node once, in order |
| Balancer.ProbedInTurn | internal/balancer/balancer.go:266-278 | after a round each node has one success more if its probe answered and one failure more if not |
| Balancer.Pool.ReplaceNodes | internal/balancer/balancer.go:178-184 | fresh healthy nodes from the configuration, counter back to zero |
| Balancer.BuildNodes | internal/balancer/balancer.go:88-109 | distinct healthy nodes with the configured URLs, weights of at least one, names, and explicit or derived WebSocket addresses |
| Balancer.WSURLIsDerived | internal/balancer/balancer.go:308-322 | a derived address has the same rest and is secure if and only if the HTTP address is; a WebSocket URL is kept; any other gives none |
| Registry.Registry.constructor | internal/balancer/balancer.go:64-76 | one pool for each configured network, freshly started |
| Registry.Registry.ReloadNodes | internal/balancer/balancer.go:128-152 | a set of networks is reloaded with new nodes and every other keeps its own; without error it is all that are configured, with one some may be left and the network named has no nodes |
| Registry.ReloadedConfigured | internal/balancer/balancer.go:128-184 | a reloaded network has the nodes of its new configuration and starts its turns anew, any other is as it was |
| Registry.Registry.LateReport | internal/balancer/balancer.go:130-250 | a report on a node picked before a reload changes that node if its network was left alone, and no current node of any network if it was reloaded |
| Registry.RunsStaySafe | internal/balancer/balancer.go:128-250 | over any run of picks, reports and reloads the networks stay the same, pools stay nonempty with weights of at least one, and every HTTP pick gives a current node |
| Failover.BoundedFailures | internal/proxy/handler.go:82-119 | with some live upstream and D dead ones, any unbounded run of requests, probes and WebSocket picks returns at most D * unhealthyThreshold - 1 "upstream unavailable" errors |
| FailoverTight.FailuresAreReached | internal/balancer/balancer.go:324-360 | for any thresholds and any D >= 1 there are a pool with D dead upstreams and a live one, and a run of requests and WebSocket picks, with exactly D * unhealthyThreshold - 1 such errors |
| Failover.BoundedExposure | internal/proxy/handler.go:82-119 | each dead node is a request's first choice at most unhealthyThreshold times |
| Failover.RequestStep | internal/proxy/handler.go:82-119 | a request costs a dead first choice one of the failures it has left and no other node any, and fails only if failures are left elsewhere |
| Failover.ServeIsTwoTries | internal/proxy/handler.go:82-119 | a request is answered by the node whose turn it is or, if that forward broke, by the next, and is unavailable if both broke; the first is judged by its reply, with 500 and more a failure, the second only if it answers, and no other node is |
| MeteringLaws.LawsHold | internal/stats/collector.go:149-266 | every sound law holds in every reachable state of any interleaving, corrected by what is still owed |
| MeteringLaws.LiveCountersCover | internal/stats/collector.go:149-266 | at any moment global counters are at least the sum over tokens, and a token's at least the sum over its chains |
| MeteringLaws.CountersSplitAtRest | internal/stats/collector.go:149-266 | with no recorder in flight: requests = auth failed + denied + limited + proxied (by level), successes = billable + free, upstream errors <= proxied |
| MeteringLaws.LevelsAgreeAtRest | internal/stats/collector.go:149-266 | with no recorder in flight the levels are equal, requests excepted by exactly the failed logins and the refusals |
| MeteringLaws.AccountsAgreeAtRest | internal/proxy/handler.go:121-170 | for any concurrent mix of HTTP and WebSocket recorders, a token's successes are its daily counters and its billed units, and its cents price times billable calls |
| MeteringLaws.OverviewsAreCovered | internal/stats/collector.go:280-319 | in every overview returned by any of the non-atomic snapshots, any number at once, each total is at least the sum over the tokens |
| Collector.Collector.RecordProxy | internal/stats/collector.go:181-221 | in the order of the program, a failed call adds a request, a proxied call and an upstream error at each level, any other a request, a proxied call, its successes, billable or free, and its errors, and nothing else changes |
| Collector.Collector.RecordWSNotification | internal/stats/collector.go:235-266 | a push adds its raw count and, as successes, billable or free, its units, or the raw count if there are none, at each level; nothing if there is no count |
| Collector.Collector.RecordWSConnect | internal/stats/collector.go:224-233 | adds one connection at each level and nothing else |
| Collector.Collector.IncMethodDenied | internal/stats/collector.go:160-168 | adds one denied method and one request, globally and for the token, and nothing else |
| Collector.Collector.IncRateLimited | internal/stats/collector.go:170-178 | adds one limited request and one request, globally and for the token, and nothing else |
| Collector.Collector.IncAuthFailed | internal/stats/collector.go:154-158 | adds one failed login and one request, globally only |
| Collector.Collector.IncDomainRejected | internal/stats/collector.go:149-152 | adds one rejected domain, globally only, and no request |
| Collector.Collector.Snapshot | internal/stats/collector.go:280-319 | every known token appears, every token once, with its counters, and no counter changes |
| Gateway.Handler.ServeHTTP | internal/proxy/handler.go:48-184 | each early refusal has its status and code and changes nothing; otherwise the pool moves as Failover.Serve says and keeps its nodes, the customer is charged as in the next row, and the answer is the upstream's status or 502 with its code |
| Gateway.SettledIsCharged | internal/proxy/handler.go:121-170 | results of a 2xx reply are counted one by one, successes also in the counter of the day and as one event at the token's price if there are any; any other reply below 500 is a request and nothing more; 500 or more, or no reply, is an upstream error; every other counter stays |
| Gateway.Handler.Reach | internal/proxy/handler.go:82-119 | pick, retry on another URL, and reports refine Failover.Serve |
| Gateway.Handler.Settle | internal/proxy/handler.go:105-184 | what is recorded, billed and answered for each outcome |
| Gateway.RecorderIsHonest | internal/proxy/handler.go:138-163 | the bill carries the units counted, for the same token, at its price or nothing |
| WsSession.Session.HandleInbound | internal/wsproxy/handler.go:220-273 | a message is forwarded if and only if the limiter allows it, a request is valid and not denied, and a single subscribe finds subN below a positive limit; it is registered if it is a single request; the limiter's and the method filter's refusals are counted as such |
| WsSession.Session.HandleOutbound | internal/wsproxy/handler.go:275-344 | pending requests and subscriptions change as in OutboundTracks and the customer is charged as in RecordedIsCharged |
| WsSession.OutboundTracks | internal/wsproxy/handler.go:296-331 | a reply ends its request's wait; without error it adds the subscription it names under the kind asked for, or takes one off for an unsubscribe |
| WsSession.RecordedIsCharged | internal/wsproxy/handler.go:275-378 | a reply is charged for the results it counts, or, if it counts none, as one success or error of the pending request it answers; a push as one notification of the configured units, at least one, under the kind of its subscription; each with one event if it has successes |
| WsSession.RecorderIsHonest | internal/wsproxy/handler.go:275-378 | pushes and replies are billed for the units they are counted as |
| WsProtocol.SubscriptionBound | internal/wsproxy/handler.go:251-331 | with at most K unanswered subscribes, 0 <= subN <= maxSubs - 1 + K in every interleaving of the pumps, and subscriptions noted exceed that at most by the decrements |
| WsProtocol.ConsumedOnce | internal/wsproxy/handler.go:265-308 | each registration is consumed by at most one reply |
| WsProtocol.LiveIsCovered | internal/wsproxy/handler.go:251-331 | in every run live subscriptions are at most subN plus the stray decrements plus the unbooked confirmations, and so at most maxSubs - 1 + K plus those |
| WsProtocol.SubNIsCovered | internal/wsproxy/handler.go:310-331 | in every run subN is at most the live subscriptions plus those that ended unseen |
| WsProtocol.ConfiguredLimitIff | internal/wsproxy/handler.go:251-255 | every run with at most so many stray decrements and unbooked confirmations keeps live subscriptions within the configured maxSubs if and only if K = 1 and both numbers are zero, or K = 0 and the second is at most maxSubs |
| WsProtocol.RoomIsUsedIff | internal/wsproxy/handler.go:251-255 | in every run with at most so many unseen ends no subscribe is refused while fewer than maxSubs are live, if and only if that number or K is zero |
| WsProtocol.LimitHoldsIff | internal/wsproxy/handler.go:251-331 | every run with at most so many stray decrements and unbooked confirmations keeps live subscriptions within maxSubs - 1 + K if and only if both numbers are zero, or, if K = 0, the second is below maxSubs |
| WsProtocol.LimitCanBeEvaded | internal/wsproxy/handler.go:310-331 | a run with any number of live subscriptions in which, after every step, subN and the unanswered requests are at most one and every confirmation was booked |
| WsProtocol.BatchIsNotCounted | internal/wsproxy/handler.go:246-268 | a batch is forwarded at any subN and registers nothing |
| WsProtocol.InboundIsSteps | internal/wsproxy/handler.go:251-268 | the client's handler is two steps of the interleaved machine, or none |
| WsProtocol.OutboundIsSteps | internal/wsproxy/handler.go:302-331 | the upstream's handler is two steps of the interleaved machine, or none |
| ConnGuard.ConnGuard.Acquire | internal/wsproxy/handler.go:42-50 | a slot is taken unless a positive limit is reached |
| ConnGuard.ConnGuard.Release | internal/wsproxy/handler.go:52-61 | a slot is returned, clamped at zero, and an empty entry is deleted |
| ConnGuard.RunsCount | internal/wsproxy/handler.go:42-61 | over any opening and closing of sessions the count is the number of sessions holding a slot, within the limit, with no zero entries |
| ConnGuard.TurnedAwayIff | internal/wsproxy/handler.go:42-61 | a session is turned away if and only if the limit is positive and that many sessions of its token are open; the clamp of a release is never needed |
| ConnGuard.NothingLeaks | internal/wsproxy/handler.go:52-61 | with no session open the map is empty |
| Ledger.Postgres.RecordBillableSuccess | internal/db/billing_repo.go:73-125 | all or nothing at every fault: the event and its usage if it is new, nothing if it is stored; success is reported only if committed |
| Ledger.Postgres.IncrUsageDaily | internal/db/billing_repo.go:53-71 | one upsert, or nothing |
| Ledger.Postgres.Publish | internal/billing/publisher.go:105-111 | billable events go through the transaction, free units through the upsert |
| Ledger.PublishToAll | internal/billing/publisher.go:118-126 | every database gets the event as Step says and every stream once unless it fails, whichever failed before; the first failure, and only a failure, is reported |
| Ledger.PublishEach | internal/billing/publisher.go:105-126 | after any list of events, with any faults, each database is left at After of its deliveries |
| Ledger.NewPublishers | internal/billing/publisher.go:27-54 | a database is always among the publishers, a stream if it is chosen and there, and the log if there is nothing else |
| Ledger.AcceptedIsWritten | internal/db/billing_repo.go:53-125 | without a fault an event is accepted, and one accepted is in the tables, counted once |
| Ledger.LedgerBalances | internal/db/billing_repo.go:53-125 | after any deliveries with duplicates, reorderings and faults, billable_count is the sum of stored events, success_count that plus the committed free units, and rows exist for no other days |
| Ledger.SameCommitsSameTables | internal/db/billing_repo.go:73-125 | two sequences of deliveries with the same committed billable ids and the same multiset of committed free events leave the same tables |
| Ledger.RedeliveryIsHarmlessIff | internal/billing/publisher.go:105-111 | delivering an event again changes nothing if and only if it is billable |
| Ledger.TablesMatchEvents | internal/db/billing_repo.go:53-125 | with every billable event committed at least once and every free one exactly once, both counts of every token and day are the units of the issued events |
| Conservation.CallAdds | internal/proxy/handler.go:121-170 | a call as the handlers write it down adds to every balance exactly what its recorder owes, or more where a law is only a bound |
| Conservation.AccountsAgree | internal/proxy/handler.go:121-170 | after any sequence of HTTP calls and WebSocket messages, a token's successes are its daily counters and its billed units, and its cents price times billable calls |
| Conservation.TablesAgreeWithStatistics | internal/billing/publisher.go:105-111 | under the delivery conditions of TablesMatchEvents, usage_daily counts over all days just the successes that the statistics show |
| Traffic.Server.Run | cmd/gateway/main.go:141-172 | the middleware, the HTTP handler and the sessions, run on any list of arrivals and messages from empty books, write down each of them, and at the end the accounts of every token agree and every sound law of counting holds |
| Traffic.Server.Screen | internal/middleware/middleware.go:30-151 | host, token, body, methods and rate are checked in this order; each refusal has its own count and answer, and only the last check asks the limiter |
| Traffic.Server.HistoryInOrder | cmd/gateway/main.go:141-172 | after each message of any history every law that is sound at the tokens' terms holds |
| Traffic.OrderlyTablesAgree | internal/billing/publisher.go:105-111 | in such books, with every billable event committed at least once and every free one exactly once, usage_daily counts just the successes that the statistics show |
| AdminJwt.MemoryStore.Save | internal/adminjwt/memory_store.go:19-24 | the record is stored under its id |
| AdminJwt.MemoryStore.Ask | internal/adminjwt/memory_store.go:26-34 | known, not revoked, and strictly before its expiry |
| AdminJwt.MemoryStore.RevokeAllActive | internal/adminjwt/memory_store.go:36-46 | exactly the records that have not expired when the loop reaches them are revoked, in whatever order |
| AdminJwt.MemoryStore.LatestActive | internal/adminjwt/memory_store.go:48-66 | an active record that no other is newer than, or none if and only if none is active |
| AdminJwt.MemoryStore.CleanupExpired | internal/adminjwt/memory_store.go:68-79 | exactly the records expired by the cutoff are deleted, and counted |
| AdminJwt.Rotator.Issue | internal/adminjwt/jwt.go:23-55 | no record without a secret or with a lifetime that is not positive |
| AdminJwt.Rotator.Rotate | internal/adminjwt/rotator.go:49-80 | revoke, issue, save and clean up in this order, stopping where issuing fails |
| AdminJwt.Rotator.Start | internal/adminjwt/rotator.go:24-47 | an optional first rotation and one for each tick, none without a period |
| AdminJwt.RotationsAreRuns | internal/adminjwt/rotator.go:24-80 | whatever the rotator does is a run of the machine of the next rows |
| AdminJwt.AtMostOneActive | internal/adminjwt/rotator.go:49-61 | with RevokePrevious no two tokens are active together, after any step of any run and until the next |
| AdminJwt.ActiveIff | internal/adminjwt/memory_store.go:26-34 | an issued token is active if and only if its lifetime has not passed and nothing was revoked since, whatever was issued or cleaned meanwhile |
| AdminJwt.LatestIsNewest | internal/adminjwt/memory_store.go:48-66 | until it expires or the next rotation begins the newest token is what LatestActive finds |
| AdminJwt.InactiveForGood | internal/adminjwt/memory_store.go:26-46 | an issued token that is inactive never becomes active again |
| AdminJwt.CleaningIsInvisible | internal/adminjwt/rotator.go:71-78 | removing every clean-up from a run changes no answer of IsActive, now or later |
| AdminJwt.StoreStaysSmall | internal/adminjwt/rotator.go:71-78 | with tokens issued at least Every apart the store after a clean-up holds at most (TTL + retention) / Every of them, rounded up |
| AdminJwt.NoneActiveIff | internal/adminjwt/rotator.go:49-80 | with RevokePrevious, while a token issued by the rotation would live, no token is active if and only if it issued none, which is so exactly without a secret or when signing fails; else the new token is the latest |

## Left out

- The HTTP, WebSocket, Redis and PostgreSQL transport, JSON parsing and logging: messages arrive parsed, replies and faults are parameters.
- `localAllow` and `golang.org/x/time/rate`: its answer is a parameter of each bucket check; the bounds are about the Redis script.
- Rounding of the script's floating point, and overflow of 64-bit counters: levels and statistics are exact integers; only the health counters have a width.
- Errors of INCRBY and the 48-hour expiry of daily counters in Redis: `IncrSuccess` ignores the former, and no day is asked for after the latter.
- QuotaProtocol.QuotaOvershootBound: speaks of HTTP requests only, with a constant quota and no counter errors; pushes of a WebSocket session count without being checked.
- ByChain inside a snapshot is loaded after the token's own counters, so no bound between the two is claimed for a returned overview; the live state has it.
- Sorting of the snapshot by token key, last-request times, and the descriptive fields of events (name, user, plan, upstream, latency, address).
- Collector.Collector.Snapshot: is the undisturbed reader; loads interleaved with recorders are the subject of OverviewsAreCovered.
- Collector.Collector.RecordProxy: runs its additions without interruption; other recorders between them are the subject of LawsHold.
- Conservation.AccountsAgree: for counters kept in process; in Redis the same units go to the same days under longer keys.
- LimiterBounds.TwoLevelBound: for a token whose plan does not change during the run, and from a limiter without entries.
- Expiry of a Redis entry between the reading of the clock and the evaluation of the script: expiry is judged by the reading.
- Traffic.Server.Run: takes messages one after the other, with counters in process and with a collector; recorders that run at once are the subject of LawsHold.
- Registry.Registry.LateReport: one reload between pick and report; reloads in any number are the runs of RunsStaySafe.
- Balancer.Fairness: for a fixed set of candidates; nothing is claimed per transport when Next and NextWS interleave over different candidates, because they share one counter.
- Gateway.Handler.ServeHTTP: runs a request without others between its accesses to the pool; interleaved reports are the subject of HealthChangesAreJustified.
- The goroutines that publish events: an event is appended to the outbox when it is created, and Ledger takes any deliveries of the outbox.
- The set-up of a WebSocket connection (upgrade, dial, the call of RecordWSConnect), closing of pumps, CheckMethods and host checks.
- InsertBillingEvent is never called and would store an event without usage.
- PostgresStore of admin tokens, signing and parsing of tokens (the unique id of RFC 7519, section 4.1.7, is an assumption that ids are fresh), configuration loading.
