# Subscription pool: a verified model

The program is a proxy that shares a pool of AI-provider subscriptions among many callers. This
project models the parts of it whose correctness depends on interleaving, scheduling arithmetic or
whole-run accounting, and proves what they promise.

- **Requests.** `HandleMessages` has the failover loop twice: as imperative methods (`Handle` and the
  methods it calls) and as a machine that is resumed with the outcome of each await; the two are
  proved to agree. `FailoverTrace` and `RetryOrder` prove what the log of one request looks like,
  `FailoverDecisions` what each answer makes it do next, and
  `PoolSystem`, `PoolInvariants` and `PoolTheorems` let a scheduler interleave any number of requests, refreshes,
  relay releases, management calls and prober reads over one in-flight tracker (`InFlight`), one
  single-flight token manager (`Tokens`) and one subscription table (`SubscriptionTable`).
  `PoolFences` adds the snapshot log to such runs, and `RefreshHistory` reads off their events how
  every token refresh came to its outcome.
- **Selection.** `Selection` is the three-level argmin with its fences and retry hint, `RetryAfter`
  says exactly when the hint is right, `SelectSubscription` is the use case around it,
  `WaterFilling` proves that "select, then take a lease" is an optimal balancer, and `RateLimit`
  follows the rate-limit headers of a response to the fence that selection sees.
- **Database queue.** `SerialEngine` models the promise chain, transactions with rollback and the
  faults of the driver, and proves every schedule serialisable. `AuthStore` states what the
  repository operations mean on top of it, `AuthFlows` interleaves any number of logins and
  subscription links over that engine, and `AuthServices` has the two services as the code writes
  them, each verified while other calls change the same store.
- **Prober.** `LoadLog` and `Prober` model the snapshot log, the timer with its overlap guard and
  the sweep.
- **Exact transformations.** `Placeholders` (positional to numbered SQL placeholders), `BetaHeader`
  (ordered union of header tokens), `SecretCrypter` over `Base64Url` (versioned ciphertext envelope
  under a growing key ring), `Sessions` over `Timestamps` (session expiry compared as strings).
  `Text` and `Decimal` hold the string operations they share.

Every stretch of code between two awaits is one atomic step. Classes carry the fields that the
program updates in place; their methods are tied to functions on values, and the theorems about
whole runs are about those functions. Whatever the outside world decides (upstream statuses, provider
answers, failing statements, fresh ids, the clock) is nondeterministic or a parameter.

Two statements in the repository's own texts are not what its code does. The invariant that a fenced
candidate "becomes eligible again once the cooldown passes" (spec/partitions/pool-selection.md:136)
fails for a `rate_limited` snapshot; `RetryAfter.RateLimitedOutlastsCooldown` gives one, and
`RetryAfter.EligibleAgainIff` the exact condition. The comment on `consume` speaks of a conditional
update that returns the row (src/shared/pkce/SqlitePkceSessionRepository.ts:1-5); the code reads and
then updates, and single use rests on the serial engine, which is how it is proved here.

## Model

| member | source | states |
|---|---|---|
| `FailoverTrace.RelayedTrace` | src/features/proxy/application/HandleMessagesUseCase.ts:66-146 | whatever its awaits answer, a call that relays a response leased distinct subscriptions, at most `maxAttempts`; harvested each response once, for the subscription that gave it; cancelled every body but the relayed one once; retried a subscription only after a 401 and a successful refresh; and relays a status other than 401 and 429, below 500 |
| `RetryOrder.AtMostTwoForwards` | src/features/proxy/application/HandleMessagesUseCase.ts:117-134 | wherever a call is: if its log has two forwards to one subscription, then between them and in this order the first was answered 401 and a refresh gave the token the second carries, nothing else was forwarded in between, and no other forward of the whole log goes to that subscription |
| `RetryOrder.WorkIsBounded` | src/features/proxy/application/HandleMessagesUseCase.ts:67-105 | whatever the answers, a call makes at most 2 * `maxAttempts` forwards |
| `RetryOrder.EveryLogOrdered` | src/features/proxy/application/HandleMessagesUseCase.ts:107-146 | the order of the log, and what the attempt under way has sent so far, hold after every await |
| `FailoverTrace.EndedReleases` | src/features/proxy/application/HandleMessagesUseCase.ts:89-105 | a call that throws has given back every lease, each once, in the order it took them |
| `FailoverTrace.ReleaseOnce` | src/features/proxy/application/HandleMessagesUseCase.ts:81-87 | the first `release` of a relay gives its lease back, further ones do nothing |
| `FailoverTrace.EveryTraceOk` | src/features/proxy/application/HandleMessagesUseCase.ts:57-146 | the full account of leases, responses, refreshes and forwards holds after any sequence of answers, in mid-call too |
| `FailoverDecisions.HealthyIsRelayed` | src/features/proxy/application/HandleMessagesUseCase.ts:118-146 | wherever a call is: a harvested response below 500 that is no 401 and no 429 is relayed, with nothing cancelled and nothing released |
| `FailoverDecisions.First401Refreshes` | src/features/proxy/application/HandleMessagesUseCase.ts:120-123 | a first 401 has its body cancelled and is followed by the refresh of that very subscription, its lease kept |
| `FailoverDecisions.GivenUpGoesOn` | src/features/proxy/application/HandleMessagesUseCase.ts:89-139 | after a 429, a 5xx or a second 401 the body is cancelled, the lease given back, and the call lists again or, with no attempt left, asks for thirty seconds |
| `FailoverDecisions.RefusedGoesOn` | src/features/proxy/application/HandleMessagesUseCase.ts:96-104 | after a refused refresh the lease is given back and the call goes on in the same way |
| `FailoverDecisions.TokenIsUsed` | src/features/proxy/application/HandleMessagesUseCase.ts:112-128 | a token is forwarded with, for the subscription of the attempt and to the provider of the model; only for OpenAI and a token without an account id is the attempt given up instead |
| `FailoverDecisions.ErrorEnds` | src/features/proxy/application/HandleMessagesUseCase.ts:96-102 | any other error, wherever it strikes, ends the call with no lease left |
| `FailoverDecisions.BeginsAuthenticated` | src/features/proxy/application/HandleMessagesUseCase.ts:57-71 | without a bearer or a principal the call is unauthorized, otherwise it lists for that principal |
| `FailoverDecisions.AttemptBegins` | src/features/proxy/application/HandleMessagesUseCase.ts:71-80 | with the rows listed, an attempt leases one that was not tried and passes the fences whenever there is one, and asks for its token; otherwise the call ends with the retry hint of the rows not tried |
| `FailoverDecisions.NoCapacityHasCause` | src/features/proxy/application/HandleMessagesUseCase.ts:69-104 | over all answers: a call ends without capacity only after `maxAttempts` leases, with thirty seconds, or because some selection refused, with the hint of that refusal |
| `HandleMessages.RoutesByName` | src/shared/openai/Constants.ts:11-16 | a model goes to OpenAI exactly when it begins with `gpt-` or `codex-`, or with an o and one digit or more that end it or are followed by a dash; every other one, and none at all, to Anthropic |
| `HandleMessages.Handle` | src/features/proxy/application/HandleMessagesUseCase.ts:57-105 | the imperative failover loop ends as the machine that the decision theorems are about does on the same answers, with the same log of calls on its collaborators |
| `HandleMessages.AttemptOnce` | src/features/proxy/application/HandleMessagesUseCase.ts:107-146 | however an attempt ends (relay, failover, refused refresh, other error), the machine that the decision theorems are about, resumed with the same answers, reacts to that ending from a state with the same log |
| `HandleMessages.RefreshAndRetry` | src/features/proxy/application/HandleMessagesUseCase.ts:120-129 | the reaction to a first 401 ends with the verdict on a second response, a failover or an error, as the machine does, with the same log |
| `HandleMessages.Exchange` | src/features/proxy/application/HandleMessagesUseCase.ts:117-118 | a forward and its harvest give the status on which the machine decides, or an error when either throws |
| `PoolTheorems.LeasesAreConserved` | src/features/proxy/application/HandleMessagesUseCase.ts:69-104 | in every state of every schedule each subscription's in-flight count is the number of requests that hold a lease on it, and the tracker is empty when none does |
| `PoolTheorems.RequestHoldsAtMostOne` | src/features/proxy/application/HandleMessagesUseCase.ts:80-104 | in every state a request has released all its leases but at most one, none is left once it has thrown, and a held lease is counted |
| `PoolTheorems.HeldIsCounted` | src/features/pool-selection/domain/InFlightTracker.ts:18-25 | the clamp of `decrement` never loses a count: a lease that is given back was counted |
| `PoolTheorems.SecondReleaseIsIdle` | src/features/proxy/application/HandleMessagesUseCase.ts:82-87 | a second `release` of a relay changes nothing in the whole system |
| `PoolTheorems.ForwardsAreIsolated` | src/features/proxy/application/HandleMessagesUseCase.ts:107-183 | in every state of every schedule each upstream request went to OpenAI's base exactly when its model is named as `RoutesByName` spells out, and to Anthropic's otherwise, for a subscription that the request's own listing had found: stored as such at the moment that listing was answered, active, of that provider and in the principal's own or donor pool; it still belongs there, and the token is of that subscription's account, whoever's refresh produced it |
| `PoolTheorems.ListingIsThePool` | src/features/pool-selection/application/SelectSubscriptionUseCase.ts:34-40 | a request's listing has every active row of the provider in its principal's own user pool, or in the donor pool, as its key says, and no other |
| `PoolTheorems.InactiveIsNeverUsed` | src/features/subscriptions/adapters/outbound/SqliteSubscriptionRepository.ts:109-149 | once a row has left `active`, a request that has not arrived by then, or is not working on a row then, never selects it or forwards for it afterwards |
| `PoolTheorems.EverySnapshotListed` | src/features/pool-selection/application/SelectSubscriptionUseCase.ts:36-51 | from any state in which a request works on no row: every row it later works on or forwards for was given to it by a listing answered after that state, and was stored as such when it was answered |
| `PoolTheorems.SingleFlightEverywhere` | src/features/subscription-oauth/application/TokenManager.ts:53-90 | in every state at most one refresh of a subscription is outstanding and the map has an entry exactly while it is; a refresh about to settle with a token finds that token stored; a refused one finds its row out of every pool, given a registered provider |
| `PoolTheorems.UnregisteredIsRefusedUnmarked` | src/features/subscription-oauth/application/TokenManager.ts:65-72 | the one exception: an unregistered provider refuses without marking the row |
| `PoolTheorems.SettledTokenIsStored` | src/features/subscription-oauth/application/TokenManager.ts:58-80 | when a refresh settles with a token, the stored token is that one and the map entry is gone |
| `PoolTheorems.JoinersAgree` | src/features/subscription-oauth/application/TokenManager.ts:53-63 | all callers that joined one refresh get the same outcome, whenever they resume |
| `RefreshHistory.EveryRunHasItsHistory` | src/features/subscription-oauth/application/TokenManager.ts:65-90 | in every state of every schedule a refresh is where its own events in this order brought it: a token only after a grant of it that was stored; refused, for a registered provider, only after a denial or a failed store and then the marking; broken only when that marking failed |
| `RefreshHistory.DeniedIsRefused` | src/features/subscription-oauth/application/TokenManager.ts:81-89 | a refresh that was denied, or whose grant could not be stored, settles as refused with its row out of every pool, or else its marking failed |
| `RefreshHistory.GrantIsStoredWhole` | src/features/subscription-oauth/application/TokenManager.ts:74-80 | storing a grant gives exactly that row its access token, its rotated refresh token and its expiry, and changes nothing else in the table |
| `RefreshHistory.MarkingIsStored` | src/features/subscription-oauth/application/TokenManager.ts:81-87 | marking makes exactly that row unusable and changes nothing else in the table |
| `RefreshHistory.FreshOutlastsSkew` | src/features/subscription-oauth/application/TokenManager.ts:40-63 | the stored token is handed out without a refresh exactly when its expiry parses and is more than the skew away; otherwise the caller waits for the one outstanding refresh of that subscription |
| `PoolTheorems.HistoryMovesOn` | src/features/subscriptions/adapters/outbound/SqliteSubscriptionRepository.ts:89-129 | between any two states of a run rows stay, keep provider, pool, owner and account, and never become active again; settled refreshes keep their outcome |
| `PoolTheorems.EveryStateOk` | src/features/proxy/application/HandleMessagesUseCase.ts:57-146 | the invariant behind the theorems above holds in every reachable state |
| `PoolFences.LeasedIsNotFenced` | src/features/pool-selection/application/SelectSubscriptionUseCase.ts:36-70 | over every run of the pool with its snapshot log: when a request leases a subscription, the latest snapshot the log held for it at some moment between the answer to its listing and the lease is not fenced at the time of the lease |
| `PoolFences.FencedIsNotLeased` | src/features/pool-selection/domain/Selection.ts:47-61 | once the log has a fencing snapshot, no request that lists afterwards leases its subscription while that snapshot and all as recent ones fence |
| `PoolFences.HarvestedCooldownHolds` | src/features/proxy/application/HandleMessagesUseCase.ts:185-195 | a cooldown one request harvests keeps every request that lists afterwards off that subscription until it is over or a snapshot as recent comes in |
| `PoolFences.Harvested429Holds` | src/features/proxy/application/HandleMessagesUseCase.ts:117-118 | from the headers of one request's 429 to the leases of all others: once its harvest is stored, no request that lists afterwards leases that subscription until the retry-after, the reset or the five minutes are over, or a snapshot as recent comes in |
| `InFlight.DecUndoesInc` | src/features/pool-selection/domain/InFlightTracker.ts:14-25 | a decrement undoes an increment exactly, removing the entry that the increment made |
| `InFlight.InFlightTracker.Increment` | src/features/pool-selection/domain/InFlightTracker.ts:14-16 | adds one to the count of one id and changes no other |
| `InFlight.InFlightTracker.Decrement` | src/features/pool-selection/domain/InFlightTracker.ts:18-25 | takes one from the count of one id, drops an entry that reaches zero, never goes below |
| `Tokens.AtMostOneOutstanding` | src/features/subscription-oauth/application/TokenManager.ts:53-63 | two unsettled refreshes of one subscription are the same one |
| `Tokens.JoinKeepsSingleFlight` | src/features/subscription-oauth/application/TokenManager.ts:53-63 | asking for a refresh joins the outstanding one or starts the only one |
| `Tokens.StepKeepsSingleFlight` | src/features/subscription-oauth/application/TokenManager.ts:58-60 | no step of a refresh breaks single flight, and its end removes the map entry |
| `Tokens.TokenManager.EnsureFresh` | src/features/subscription-oauth/application/TokenManager.ts:40-46 | gives the stored token at once exactly when its expiry parses and lies further off than the skew, otherwise joins or starts a refresh |
| `Tokens.TokenManager.Resume` | src/features/subscription-oauth/application/TokenManager.ts:65-90 | one await of a refresh: store the grant and settle with its token, or mark the row unusable and be refused; the table and the map change as specified and in no other way |
| `Selection.SelectIsLeast` | src/features/pool-selection/domain/Selection.ts:77-103 | selection succeeds exactly when some candidate is eligible and gives the candidate that precedes every other eligible one in the order of (score plus 0.05 per lease, leases, id) |
| `Selection.SelectedBeats` | src/features/pool-selection/domain/Selection.ts:91-102 | the selected candidate beats every other eligible one on the load score plus 0.05 per request in flight, then on fewer requests in flight, then on the smaller id |
| `Selection.ChoiceIsUnique` | src/features/pool-selection/domain/Selection.ts:91-101 | there is only one such candidate |
| `Selection.SelectIgnoresOrder` | src/features/pool-selection/domain/Selection.ts:77-121 | any permutation of the candidates gives the same result, the retry hint included |
| `Selection.RankedSorted` | src/features/pool-selection/domain/Selection.ts:91-101 | the ranking is sorted by the three-level comparator |
| `Selection.SoonestResetIsMin` | src/features/pool-selection/domain/Selection.ts:109-119 | the hint is computed from the least of the resets that candidates name |
| `Selection.HintCountsSeconds` | src/features/pool-selection/domain/Selection.ts:105-121 | a closed pool names thirty seconds when no candidate names a reset, otherwise the least whole number, one or more, that reaches the soonest reset named |
| `Selection.SelectLeastLoaded` | src/features/pool-selection/domain/Selection.ts:77-103 | the code computes the specified result |
| `Selection.SortCopy` | src/features/pool-selection/domain/Selection.ts:91-101 | sorting a copy by the comparator gives the same candidates in order |
| `Selection.SoonestRetry` | src/features/pool-selection/domain/Selection.ts:105-121 | the loop computes the specified hint |
| `RetryAfter.RetryAfterIsExact` | src/features/pool-selection/domain/Selection.ts:47-121 | when all candidates are fenced only by a future cooldown, the hint r is the least whole number of seconds after which selection over the same snapshots succeeds, for every k: it succeeds after k seconds if and only if k is at least r |
| `RetryAfter.HintExactIff` | src/features/pool-selection/domain/Selection.ts:63-121 | the hint is not exact for every closed pool; it is if and only if some candidate that is only cooling waits no longer, in whole seconds, than any reset named in the pool |
| `RetryAfter.DeadFenceShortensHint` | src/features/pool-selection/domain/Selection.ts:57-121 | a pool of two whose hint is one second while it stays closed for ten: a `rate_limited` snapshot past its cooldown names the soonest reset |
| `RetryAfter.HintIsNeverLate` | src/features/pool-selection/domain/Selection.ts:105-121 | for any closed pool, whatever fences it: selection cannot succeed sooner than the hint |
| `RetryAfter.OpensWhenCooled` | src/features/pool-selection/domain/Selection.ts:47-61 | a closed pool opens after k seconds exactly when some candidate that is only cooling has waited out its cooldown |
| `RetryAfter.EligibleAgainIff` | src/features/pool-selection/domain/Selection.ts:47-61 | a candidate is ever eligible again if and only if its snapshot is neither `rate_limited` nor near full, and then exactly from the end of its cooldown |
| `RetryAfter.RateLimitedOutlastsCooldown` | src/features/pool-selection/domain/Selection.ts:57-59 | a `rate_limited` snapshot whose cooldown is over fences at every later time |
| `RateLimit.FencesExactlyUntil` | src/features/load-monitor/domain/RateLimit.ts:87-109 | how long a response fences, at every time: for ever when it says `rate_limited` or reports a near-full window, otherwise not at all unless it is a 429, and then until retry-after has passed, else until the reset selection would read from the same headers, else for five minutes |
| `RateLimit.EligibleOnArrivalIff` | src/features/load-monitor/domain/RateLimit.ts:87-109 | "a 429 always fences" is false of the code; a response leaves its subscription eligible on arrival if and only if neither its status nor its load fences it and, for a 429, retry-after is not positive or, without one, the named reset is past |
| `RateLimit.HeadersFence` | src/features/load-monitor/domain/RateLimit.ts:43-109 | from header texts to the fence, at every time: a response fences exactly when its status header is `rate_limited`, its score is 0.98 or more, or it is a 429 whose `retry-after`, else the reset header of its claimed window, else five minutes is not over |
| `RateLimit.HeadersNameReset` | src/features/load-monitor/domain/RateLimit.ts:43-109 | from header texts to the reset that the retry hint reads: `retry-after` for a 429, otherwise the reset header of the claimed window, otherwise five minutes if the response limits, or none |
| `RateLimit.ClaimedScore` | src/features/load-monitor/domain/RateLimit.ts:48-59 | from header texts to the score: the utilisation header of the claimed window, kept between zero and one; one half when it cannot be read or there is no snapshot |
| `RateLimit.CoolingIsNeverSelected` | src/features/load-monitor/domain/RateLimit.ts:87-109 | while the fence of a 429 is up no selection picks its subscription, whatever else the pool holds |
| `RateLimit.PastResetDoesNotFence` | src/features/load-monitor/domain/RateLimit.ts:98-100 | a 429 whose only hint is a past reset leaves the subscription eligible at once |
| `RateLimit.ClaimedWindowDecides` | src/features/load-monitor/domain/RateLimit.ts:48-59 | two responses that claim the same window and report the same utilisation for it have the same score, whatever else their headers say |
| `RateLimit.WorseWindowCounts` | src/features/load-monitor/domain/RateLimit.ts:52-63 | without a claim the score is at least that of either reported window and is that of one of them, one half when neither is reported |
| `RateLimit.RetryAfterIsRelayed` | src/features/load-monitor/domain/RateLimit.ts:60-97 | when every subscription of any non-empty pool was told by a 429 to wait, the waits are running and nothing else fences, the pool refuses with the least remaining wait, rounded up to whole seconds, and stays closed for exactly that long |
| `RateLimit.UnreadableIsUnknown` | src/features/load-monitor/domain/RateLimit.ts:17-23 | a numeric header is unknown exactly when it is absent, blank or no finite number, and is that number otherwise |
| `SelectSubscription.ChooseIsLeast` | src/features/pool-selection/application/SelectSubscriptionUseCase.ts:30-56 | a subscription is chosen exactly when one of the pool is not excluded and eligible, and it precedes every other such one |
| `SelectSubscription.ChooseIgnoresOrder` | src/features/pool-selection/application/SelectSubscriptionUseCase.ts:36-55 | two listings of the same rows, in whatever order the query gives them, lead to the same choice or the same retry hint |
| `SelectSubscription.RefusalIsHint` | src/features/pool-selection/application/SelectSubscriptionUseCase.ts:41-55 | a refusal carries the retry hint of the rows not excluded, thirty seconds when there are none |
| `SelectSubscription.RefusalIsExact` | src/features/pool-selection/application/SelectSubscriptionUseCase.ts:41-55 | when nothing but future cooldowns fences the rows not excluded, the use case refuses with the least whole number of seconds after which the same rows give a choice |
| `WaterFilling.GreedyIsOptimal` | src/features/pool-selection/domain/Selection.ts:84-102 | after n rounds of selecting and incrementing, no way of placing n requests on the eligible subscriptions has a lower highest biased score |
| `WaterFilling.GreedyIsBalanced` | src/features/pool-selection/domain/Selection.ts:91-95 | a subscription that holds a lease exceeds no other eligible one by more than 0.05 |
| `WaterFilling.ChosenIsLowest` | src/features/pool-selection/domain/Selection.ts:84-102 | each round of the selection use case picks an eligible subscription whose biased score is lowest |
| `SubscriptionTable.RowsEvolve` | src/features/subscriptions/adapters/outbound/SqliteSubscriptionRepository.ts:58-129 | over every run of additions, disablings and refresh outcomes rows keep provider, pool and owner, have an owner exactly in a user pool, and never return to `active` |
| `SubscriptionTable.InactiveIsNeverListed` | src/features/subscriptions/adapters/outbound/SqliteSubscriptionRepository.ts:131-157 | a row that has left `active` is in no later `listByPool` or `listActive` |
| `SubscriptionTable.SubscriptionRepository.ListByPool` | src/features/subscriptions/adapters/outbound/SqliteSubscriptionRepository.ts:131-149 | lists exactly the active rows of that pool, owner and provider, each once |
| `SubscriptionTable.SubscriptionRepository.ListActive` | src/features/subscriptions/adapters/outbound/SqliteSubscriptionRepository.ts:151-157 | lists exactly the active rows of that provider, each once |
| `SubscriptionTable.SubscriptionRepository.UpdateTokens` | src/features/subscriptions/adapters/outbound/SqliteSubscriptionRepository.ts:89-107 | replaces the tokens and expiry of one row and leaves its status alone |
| `SubscriptionTable.SubscriptionRepository.MarkUnusable` | src/features/subscriptions/adapters/outbound/SqliteSubscriptionRepository.ts:109-118 | sets the status of one row and nothing else |
| `SubscriptionTable.SubscriptionRepository.Insert` | src/features/subscriptions/adapters/outbound/SqliteSubscriptionRepository.ts:58-79 | adds a row unless its id is taken or owner and pool disagree |
| `SubscriptionTable.SubscriptionsService.Add` | src/features/subscriptions/application/SubscriptionsService.ts:23-42 | adds an active row with exactly the given provider, pool, owner and grant, or is rejected when owner and pool disagree or the id is taken |
| `SubscriptionTable.SubscriptionsService.Disable` | src/features/subscriptions/application/SubscriptionsService.ts:44-50 | disables a row exactly for its own owner and changes nothing else |
| `SerialEngine.Serialisable` | src/shared/db/SqliteEngine.ts:24-60 | in every state of every interleaving, an operation that has settled did so with the outcome it has when the operations run one at a time in enqueue order, all earlier ones have settled, and at the end the database is the one that order leaves |
| `SerialEngine.FaultlessIsServed` | src/shared/db/SqliteEngine.ts:24-60 | in every interleaving: an operation none of whose steps had a fault, once settled, is served to the letter: a statement gives what it gives alone; a transaction whose body returned is committed with that value; one whose body threw left nothing |
| `SerialEngine.FaultsHappened` | src/shared/db/SqliteEngine.ts:46-58 | an operation is recorded as failed at BEGIN or COMMIT only if it is a transaction and an earlier step of it had that very fault |
| `SerialEngine.FaultyLeavesNothing` | src/shared/db/SqliteEngine.ts:46-58 | a transaction whose BEGIN or COMMIT failed is rejected and leaves the serial database as it was |
| `SerialEngine.FaultTakesEffect` | src/shared/db/SqliteEngine.ts:46-58 | a failing BEGIN or COMMIT rejects the transaction at once, with the connection back at what it was |
| `SerialEngine.TransactionIsAlone` | src/shared/db/SqliteEngine.ts:36-60 | while a transaction is under way no other operation is, and the connection sees the serial database with that transaction's own statements on top |
| `SerialEngine.QueueNeverStops` | src/shared/db/SqliteEngine.ts:96-103 | however earlier operations ended, the first unsettled one can take a step, and no other can |
| `SerialEngine.ThrowingIsIdentity` | src/shared/db/SqliteEngine.ts:51-58 | an operation that throws, be it the body, BEGIN or COMMIT, leaves the database as it was |
| `SerialEngine.OnlyOneRunnable` | src/shared/db/SqliteEngine.ts:91-103 | the chain lets exactly one operation run at a time |
| `SerialEngine.SqliteEngine.EnqueueOp` | src/shared/db/SqliteEngine.ts:96-103 | puts an operation behind the tail of the chain and becomes the tail |
| `SerialEngine.SqliteEngine.Resume` | src/shared/db/SqliteEngine.ts:36-60 | one stretch of an operation: BEGIN, one statement, COMMIT, or ROLLBACK to the image saved at BEGIN |
| `AuthStore.ServedIsAtomic` | src/shared/pkce/SqlitePkceSessionRepository.ts:63-81 | a repository call served by the engine fails and changes nothing, or is one atomic step; for `consume` that step reads and marks at once |
| `AuthStore.AtomicExtends` | src/shared/pkce/SqlitePkceSessionRepository.ts:44-81 | no call removes a PKCE row, changes its flow, pool or owner, un-consumes it, relinks an identity or moves a session to another user |
| `AuthStore.RepositoryMeaning` | src/shared/pkce/SqlitePkceSessionRepository.ts:44-81 | for each of the six repository calls, in terms of the tables: when it succeeds, what it gives and what it changes; `consume` gives the stored flow, pool and owner of an unused state |
| `AuthFlows.OneWinPerState` | src/shared/pkce/SqlitePkceSessionRepository.ts:63-81 | in every interleaving of begins and completes of both flows, sessions minted plus grants handed out from one state never exceed one |
| `AuthFlows.StateIsRedeemedOnce` | src/shared/pkce/SqlitePkceSessionRepository.ts:63-81 | of two calls with one state at most one redeems it, and no other gets past `consume` |
| `AuthFlows.GrantWasVerified` | src/features/subscription-oauth/application/SubscriptionOAuthService.ts:61-110 | a grant is handed out only by a link call that redeemed its state, after a valid verdict within `verifyAttempts` calls, all earlier ones inconclusive |
| `AuthFlows.GrantIsAsBegun` | src/features/subscription-oauth/application/SubscriptionOAuthService.ts:38-96 | in every interleaving, the pool and owner handed out with a grant are those of the begin that created its state, which was the begin of a link and named a pool |
| `AuthFlows.CreationWasBegun` | src/features/subscription-oauth/application/SubscriptionOAuthService.ts:48-56 | a PKCE row is created only by a begin, with the terms of that begin |
| `AuthFlows.ValidLinkIsGranted` | src/features/subscription-oauth/application/SubscriptionOAuthService.ts:61-96 | a link whose state is a fresh link's, whose code is exchanged and whose credentials are valid at once is granted with the row of its state, and writes nothing more |
| `AuthFlows.LoginLooksIdentityUp` | src/features/auth/application/AuthService.ts:70-89 | a login with a fresh login state and an exchanged code looks up the identity it was given |
| `AuthFlows.ReturningUserLogsIn` | src/features/auth/application/AuthService.ts:87-99 | a linked identity gets a session of the user found, and nothing else is written |
| `AuthFlows.NewUserLogsIn` | src/features/auth/application/AuthService.ts:133-158 | an unlinked identity gets a new user, the link and a session of that user, in this order |
| `AuthFlows.FailsExactlyForCause` | src/features/auth/application/AuthService.ts:70-99 | at every await a flow fails if and only if its state was unknown, used or of the other flow, the exchange or a statement threw, or the verdict was final and not valid |
| `AuthFlows.OneUserPerIdentity` | src/features/auth/application/AuthService.ts:87-99 | in every interleaving two logins that mint for one issuer and subject mint for the same user, and the inserted session names that user |
| `AuthServices.AuthService.CompleteLogin` | src/features/auth/application/AuthService.ts:70-106 | whatever other calls do meanwhile: a user is returned exactly when its own calls, in the order spelled out, all succeed; then a session for that user was inserted under a hash that had none, the identity is linked to that user, and the state was unused before and is used after; a used state never mints |
| `AuthServices.AuthService.ResolveOrCreateUser` | src/features/auth/application/AuthService.ts:133-158 | makes exactly the calls of a found, a new or a failing user; a user that is returned is the one the identity is linked to, and the one it was linked to before, if any; losing the race throws |
| `AuthServices.SqlitePkceSessionRepository.ConsumeOnce` | src/shared/pkce/SqlitePkceSessionRepository.ts:63-81 | whoever gets the row gets the stored flow, pool and owner, finds the state unused and leaves it used; who gets none found it missing or used |
| `AuthServices.SqlitePkceSessionRepository.Create` | src/shared/pkce/SqlitePkceSessionRepository.ts:44-61 | a state is created only where there was none, with exactly the given flow, pool and owner |
| `AuthServices.SubscriptionOAuthService.VerifyGrant` | src/features/subscription-oauth/application/SubscriptionOAuthService.ts:98-110 | asks at most `verifyAttempts` times and stops at the first conclusive verdict; inconclusive means all were used; it agrees with the steps of the linking flow |
| `AuthServices.SubscriptionOAuthService.CompleteLink` | src/features/subscription-oauth/application/SubscriptionOAuthService.ts:61-96 | a grant is handed out exactly when `consume` gave the row of a link with a pool, the code was exchanged and the last verdict is valid; it names the pool and owner stored for that state, which was unused before and is used after |
| `AuthServices.SubscriptionOAuthService.BeginLink` | src/features/subscription-oauth/application/SubscriptionOAuthService.ts:38-59 | a link is begun unless a user pool has no owner or the insert fails, and its state is then stored with exactly that pool and owner |
| `LoadLog.LoadRepository.LatestBySubscription` | src/features/load-monitor/adapters/outbound/SqliteLoadRepository.ts:79-87 | gives a row of that subscription with the greatest time, or nothing exactly when there is none |
| `LoadLog.LoadRepository.InsertSnapshot` | src/features/load-monitor/adapters/outbound/SqliteLoadRepository.ts:53-77 | appends one row and changes none |
| `Prober.ProbesAreSpaced` | src/features/load-monitor/application/LoadMonitorService.ts:39-88 | over every run of ticks, stops, restarts, failing probes and interleaved harvests, two probe snapshots of one subscription are at least `idleThresholdMs` apart |
| `Prober.ProbeRate` | src/features/load-monitor/application/LoadMonitorService.ts:59-75 | any window of length w holds at most floor(w / threshold) + 1 probe snapshots of a subscription |
| `Prober.OnlyIdleAreProbed` | src/features/load-monitor/application/LoadMonitorService.ts:59-75 | whenever a probe is under way, the log as read for it held no snapshot of that subscription younger than the threshold, passive ones included, and no cooldown in force in the latest |
| `Prober.ProbesExactlyIdle` | src/features/load-monitor/application/LoadMonitorService.ts:59-75 | a sweep goes on to probe exactly the subscriptions that have no snapshot or whose latest is as old as the threshold with no cooldown ahead |
| `Prober.ProbeIsStored` | src/features/load-monitor/application/LoadMonitorService.ts:47-52 | with a token it probes, what the probe yields is stored under the clock's time as a probe snapshot of that subscription, and the next id has its turn |
| `Prober.OneSweepAtATime` | src/features/load-monitor/adapters/inbound/LoadProbeWorker.ts:34-46 | at most one sweep is under way in any state, and only while the worker says it is running |
| `Prober.SweepVisitsAll` | src/features/load-monitor/application/LoadMonitorService.ts:42-56 | a finished sweep has visited every listed id in order, whichever of them failed |
| `Prober.LoadMonitorService.ProbeIdle` | src/features/load-monitor/application/LoadMonitorService.ts:39-57 | the loop as written keeps the spacing, whatever is harvested during its awaits and whatever fails |
| `Prober.LoadMonitorService.ProbeOne` | src/features/load-monitor/application/LoadMonitorService.ts:43-55 | so does one round of it |
| `Prober.LoadProbeWorker.BeginTick` | src/features/load-monitor/adapters/inbound/LoadProbeWorker.ts:34-38 | starts a sweep exactly when none is running |
| `Prober.LoadProbeWorker.Start` | src/features/load-monitor/adapters/inbound/LoadProbeWorker.ts:17-25 | afterwards exactly one interval fires; one that fired before is left as it was |
| `Prober.LoadProbeWorker.Stop` | src/features/load-monitor/adapters/inbound/LoadProbeWorker.ts:27-32 | afterwards no interval fires, and a running sweep is left running |
| `Prober.OneInterval` | src/features/load-monitor/adapters/inbound/LoadProbeWorker.ts:17-32 | in every state of every run at most one interval fires, and it is the one a stop would clear |
| `Prober.InactiveIsNeverSwept` | src/features/load-monitor/application/LoadMonitorService.ts:39-52 | once a row has left `active`, no sweep that lists afterwards visits it; only Anthropic rows are visited |
| `Placeholders.MeaningKeptIff` | src/shared/db/PostgresEngine.ts:27-30 | for SQL without dollar signs, the rewritten text bound by index is the original bound by position if and only if no `?` is directly followed by a digit |
| `Placeholders.IndicesAreOneToK` | src/shared/db/PostgresEngine.ts:27-30 | for SQL without dollar signs and without a `?` directly followed by a digit, the indices in the rewritten text are 1, 2, up to the number of placeholders, in this order |
| `Placeholders.RestoredIff` | src/shared/db/PostgresEngine.ts:27-30 | turning each `$n` back into `?` restores the input under the same condition, and only then |
| `Placeholders.ToDollar` | src/shared/db/PostgresEngine.ts:27-30 | the loop with its counter computes the rewriting |
| `BetaHeader.MergedIsOrderedUnion` | src/features/proxy/domain/SystemPrompt.ts:74-93 | split on commas, the merged header gives trimmed non-empty tokens without repeats, the mandatory ones first, the rest in the order the client first named them, and exactly the mandatory and the client's tokens |
| `BetaHeader.ElementsArePieces` | src/features/proxy/domain/SystemPrompt.ts:77-91 | the client's tokens are the pieces between its commas, trimmed, but for the blank ones |
| `BetaHeader.WithoutClientHeader` | src/features/proxy/domain/SystemPrompt.ts:84-92 | without a client header exactly the two mandatory tokens are sent |
| `BetaHeader.MergeIsIdempotent` | src/features/proxy/domain/SystemPrompt.ts:74-93 | merging a merged header changes nothing |
| `BetaHeader.MergeBeta` | src/features/proxy/domain/SystemPrompt.ts:74-93 | the two loops over `merged` and `seen` compute that header |
| `SecretCrypter.SecretSurvives` | src/shared/crypto/SecretCrypter.ts:31-72 | over any sequence of ring growths and rotations a stored secret decrypts to the same plaintext, and right after a rotation it is under the ring's highest id |
| `SecretCrypter.DecryptAfterGrowth` | src/shared/crypto/SecretCrypter.ts:46-68 | any ring that has the writer's keys decrypts the writer's envelopes |
| `SecretCrypter.DecryptOfSealed` | src/shared/crypto/SecretCrypter.ts:46-80 | an envelope whose key id the ring lacks fails as unknown key; one whose key it has gives the plaintext |
| `SecretCrypter.OnlyAuthenticDecrypts` | src/shared/crypto/SecretCrypter.ts:46-80 | whatever the text, it decrypts to a plaintext if and only if its parts name scheme v1 and a key of the ring and the cipher opens iv, tag and ciphertext of its payload under that key as that plaintext |
| `SecretCrypter.EncryptWritesUnderHighest` | src/shared/crypto/SecretCrypter.ts:31-44 | encryption writes under the highest id of the ring |
| `SecretCrypter.EncryptWritesParts` | src/shared/crypto/SecretCrypter.ts:31-44 | what is written splits into v1, the highest key id in decimal, and base64url of iv, tag and ciphertext in this order |
| `SecretCrypter.EnvelopeParts` | src/shared/crypto/SecretCrypter.ts:42-55 | the split on dots gives back exactly scheme, id and payload |
| `SecretCrypter.EnvelopeIsInjective` | src/shared/crypto/SecretCrypter.ts:43-55 | two envelopes are written alike only for the same id and the same bytes |
| `SecretCrypter.Create` | src/shared/crypto/SecretCrypter.ts:18-29 | accepts exactly the non-empty rings of 32-byte keys, makes the greatest id current, and otherwise names a fault that is there |
| `Base64Url.DecodeEncode` | src/shared/crypto/SecretCrypter.ts:43-55 | base64url without padding is undone by its reader for octets of every length |
| `Base64Url.Vectors` | src/shared/crypto/SecretCrypter.ts:43-43 | three test vectors of section 10 of RFC 4648 without padding, and the two symbols of section 5 |
| `Timestamps.StringOrderIsTimeOrder` | src/features/auth/application/AuthService.ts:117-119 | for all times in the years 0000 to 9999, one ISO timestamp precedes another as a string if and only if its millisecond is earlier |
| `Timestamps.IsoLayout` | src/shared/domain/Clock.ts:13-16 | a timestamp is year, month and day of its date with dashes, T, hours, minutes and seconds with colons, a dot, milliseconds and Z, each padded to its width |
| `Timestamps.YearStartsThere` | src/shared/domain/Clock.ts:13-16 | the day-by-day calendar behind the timestamps reaches the first of January of every year on the day the leap-year count gives |
| `Timestamps.EpochIs1970` | src/shared/domain/Clock.ts:6-11 | day zero of the clock is the first of January 1970 |
| `Sessions.ResolvesExactly` | src/features/auth/application/AuthService.ts:108-121 | in every run a minted session resolves, to its own user, exactly while nobody has revoked it and the clock is below its expiry in milliseconds |
| `Sessions.NeverResolvesAgain` | src/features/auth/application/AuthService.ts:108-131 | once it fails to resolve, no later resolution succeeds |
| `Sessions.MintedRowStays` | src/features/auth/adapters/outbound/SqliteSessionRepository.ts:32-59 | the minted row keeps its id, user and expiry, and is revoked exactly by a revoke of its id |
| `Sessions.AuthService.Mint` | src/features/auth/application/AuthService.ts:90-99 | inserts the session with its expiry, unless its hash or id is taken |
| `Sessions.AuthService.ResolveSession` | src/features/auth/application/AuthService.ts:108-121 | gives the verdict that `ResolvesExactly` is about |
| `Sessions.AuthService.Logout` | src/features/auth/application/AuthService.ts:123-131 | revokes the session of that token and no other, or does nothing for an unknown one |

## Left out

- Floating point: scores, utilisations and deadlines are real numbers, so rounding of sums and products is not modelled.
- Ids are numbers: an id stands for its rank in the collation order, in place of `localeCompare`, which is taken to tell distinct ids apart.
- WaterFilling.GreedyIsOptimal: sequential selections over fixed snapshots only; two concurrent requests may select before either increments (spec/partitions/pool-selection.md:184-186), so no balance is claimed across concurrent selections.
- PoolFences.LeasedIsNotFenced: a fence that goes up after the snapshot was read does not stop a lease already being decided.
- RetryAfter.RetryAfterIsExact: is about the snapshots that were read; a later snapshot may lift a cooldown early.
- PoolTheorems.SingleFlightEverywhere: assumes that a refresh grant carries tokens of the account whose refresh token was sent, which is the provider's part; it does not claim that the refresh token sent is the one now stored, since the code sends the caller's own snapshot.
- PoolTheorems.LeasesAreConserved: safety only; that every relay is released in the end is not claimed, because the relay's writer may wait for ever on a closed client.
- PoolTheorems.ForwardsAreIsolated: the lease counts that selection ranks by are arbitrary values in the interleaved model, since they are read at different moments; snapshots are arbitrary too, except in `PoolFences`, which reads each from the log at some moment after the listing.
- SecretCrypter.DecryptOfSealed: says nothing of an envelope opened with another key under the same id, which depends on the cipher; the only assumption made of the cipher is that opening undoes sealing.
- Base64Url.DecodeEncode: the reader skips characters outside the alphabets; how the host treats padding inside malformed payloads is not modelled.
- Placeholders.MeaningKeptIff: every `?` counts as a placeholder, also inside quotes and comments, as it does for the rewriting; dollar-quoted text is outside the statement.
- Sessions.ResolvesExactly: times outside the years 0000 to 9999, which the host writes in another format, are excluded.
- AuthFlows.OneWinPerState: proved over the serial SQLite engine; over PostgreSQL the read and the update of `consume` could interleave.
- Number parsing of headers and key ids: the host's reading of a text that is not plain digits is a parameter.
- The rest of `PostgresEngine`, the statement cache, `exec` of migrations, and transactions whose bodies call the engine itself.
- `ensureIdentitySystemBlock` and the header filters: short branches with no property beyond their text.
- Labels, scopes and timestamps of stored rows; responses without a body are treated as having one to cancel.
- OIDC and JWT verification, AES, hashing, randomness, UTF-8 conversion and `fetch`: their outcomes are parameters or nondeterministic.
- HTTP servers, URL routing, CLI, configuration, egress proxy, logging and error texts.
