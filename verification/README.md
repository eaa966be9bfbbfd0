# Marketplace API: verified model

A Dafny model of the concurrent protocols under the marketplace API: the transactional outbox
with its relay and consumer, checkout and balance updates under concurrency, refresh-token
families with the access denylist, product cards behind a cache with single-flight loading,
the sliding-window limiter, idempotent order creation, resumable order events and cursor
pagination. `dafny verify dfyconfig.toml` checks everything.

## How it is modelled

- A protocol is a labelled transition system: `Step` lists what can happen, one SQL statement
  or one call to the broker or Redis at a time, `Enabled` and `Apply` say when and how, `Runs`
  and `Final` range over arbitrary sequences of steps. Processes may die between any two
  steps. A theorem about the final state of every run is a theorem about every reachable
  state.
- Postgres is committed tables plus what open transactions have written and locked; row locks
  are held to the end of the transaction; an insert of a key that another open transaction
  has inserted waits. The broker is a multiset queue with bounded returns and a dead-letter
  queue, in the topology that `src/messaging/topology.ts` declares. Redis is keys with an
  instant of expiry; a key set at t for d exists for the instants before t + d.
- Code that changes things step by step is also there as classes and methods with loops
  (`Relay`, `Consumer`, `Checkout`, `Retry`, `RefreshTokens`, `Denylist`, `Auth`, `Limiter`,
  `RedisLock`, `CardService`, `Orders`, `Idempotency`, `OrderEvents`), proved against
  functions of the old state. `Relay.PassIsRun`, `Consumer.HandlingIsRun`, `Auth.RefreshIsRun`,
  `Auth.LogoutIsRun` and `Idempotency.ServingIsRun` show for every outcome, failures included,
  that this code does what the protocol's steps do; the reads of `CardService` make their
  calls as steps of `ProductCards`, with everybody else moving in between;
  `ConcurrentCheckout.Serializable` ties concurrent checkouts to the sequential one.
- `CheckoutPipeline` and `RequestPipeline` run the two sources of orders and the event
  pipeline together over one database, so that no event of a real commit is lost.
- Clocks, random values, failures and what other processes do are arguments or steps. Fields
  called a history in a comment (`published`, `applied`, `log`, `origin`, `loads`, ...) record
  what happened and influence nothing.

| file | models |
|---|---|
| Base, Events | decimal rendering, keys, the `order.placed` event |
| Outbox, Pipeline, PipelineTheorems, PipelineProgress | the outbox table and the pipeline protocol |
| CheckoutPipeline, RequestPipeline | checkouts and requests feeding the pipeline |
| Relay, Consumer | `relayOnce`, `relayLoop`, `applyOrderPlacedEffect`, `handleMessage` |
| Checkout, ConcurrentCheckout, Retry | `checkout`, `withRetry` and `bump` |
| RefreshTokens, Denylist, Auth | token families, denylist, login / refresh / logout |
| RedisLock, ProductCards, CardService | lock, single-flight protocol, `ProductCardService` |
| Limiter | the Lua script and `consume` |
| Orders, Idempotency | `insertOrderWithEvent`, `createIdempotent` |
| OrderEvents, Pagination | server-sent events with resume, the two paging forms |

Findings worth knowing:

- README.md:925 of the repository says a used refresh token is recognised by `revoked_at`. The
  code tests `revoked_at`, then `used_at`, then expiry
  (src/auth/refresh-token.service.ts:72-81); the model follows the code.
- A cursor whose row has been deleted makes the index form start over while the keyset form
  carries on (`Pagination.SamePageIff`).
- Invalidation does not stop a reader that loaded before the commit from storing its old card
  afterwards, nor a SET that timed out (src/redis/connect.ts:16) from reaching Redis afterwards;
  these and a delete that has not taken effect are the ways to read an old card later
  (`ProductCards.InvalidationCoherentIff`).
- A client that loses its connection during a replay can miss an event although hardly any was
  emitted while it was away; what has to be counted is the events after the point up to which
  it was served (`OrderEvents.CountingOnlyTheAbsenceFails`, `OrderEvents.ResumeCompleteIff`).
- An access token signed by a refresh that had rotated before the family was denied is not
  covered to its very end: it passes again from 600 s after the denial (`Auth.GuardIsExact`,
  `Denylist.DenialCoversIff`).
- A limiter with limit <= 0 does not block: its script fails, and failing open lets every call
  through (`Limiter.NonPositiveLimitFailsOpen`).
- The stored idempotency key of an anonymous caller can coincide with a user's
  (`Idempotency.StoredKeysCollideIff`); the controller always passes a user
  (src/orders/orders.controller.ts:80).
- With more concurrent bumps than attempts one of them may give up
  (`Retry.GivesUpIffMoreThanMaxAttempts`).

## Model

| member | source | states |
|---|---|---|
| `Base.DecimalRoundTrip` | src/messaging/events.ts:25-27 | reading the decimal text of a number gives the number back, the fact under every derived key |
| `Events.BuiltEventParses` | src/messaging/events.ts:29-42 | whatever an order holds, the consumer's parser reads the serialized event back as that order under its own event id |
| `Events.AcceptedBodies` | src/messaging/consumer.ts:62-75 | a body is read as event id of order o iff it is JSON with that text as event id, the type "order.placed" and that whole number as order id; all else is poison |
| `Events.KeysInjective` | src/queue/order-tasks.ts:21 | distinct orders never share an event id or a receipt job id |
| `Outbox.InsertRowMembers` | src/outbox/outbox.ts:12-23 | inserting an outbox row adds exactly that row and loses none |
| `Outbox.InsertRowOrder` | src/outbox/outbox.ts:12-23 | the table stays strictly ordered by (created_at, id) with unique ids even when an old transaction commits late |
| `Outbox.SelectBatchInColumns` | src/outbox/relay.ts:68-77 | a claim takes only unsent, unlocked rows created since the bound, ordered by created_at and id, at most the limit, and passes over one only behind a full batch of older ones |
| `Outbox.CleanUpMembers` | src/queue/run-worker.ts:27-37 | the retention job deletes exactly the rows sent more than 604800 seconds ago and keeps the order of the rest |
| `Pipeline.InvStep` | src/outbox/relay.ts:58-119 | every statement of every relay, consumer, broker and clean-up keeps the joint invariant of tables, locks, queues and deliveries |
| `Pipeline.NothingInvented` | src/messaging/topology.ts:20-54 | the broker and the consumers move messages but never make one up |
| `Pipeline.NothingDropped` | src/messaging/consumer.ts:117-142 | a copy the broker has taken, readable or not, goes on being queued, handled or dead-lettered until this very delivery is acknowledged, which poison never is |
| `Pipeline.SafeStable` | src/messaging/consumer.ts:99-143 | once the broker or the consumer side is responsible for an order, no step of anybody drops it |
| `PipelineTheorems.NoEventLost` | src/outbox/relay.ts:58-119 | in every reachable state, with crashes, timeouts, parallel relays and clean-up, each committed order has an unsent row, a copy queued, in flight or dead-lettered, or its committed effect and receipt |
| `PipelineTheorems.EffectsAppliedOnce` | src/messaging/consumer.ts:37-60 | in every run no event is applied twice, inbox and effect rows coincide, every effect belongs to a committed order and no order has two |
| `PipelineTheorems.ClaimsDisjoint` | src/outbox/relay.ts:68-77 | parallel relays never hold a common row, and hold only unsent rows |
| `PipelineTheorems.DeadLettersAreExplained` | src/messaging/topology.ts:42-52 | a message is dead-lettered only if it is unreadable or was returned a fourth time; what can still be delivered was returned at most three times |
| `PipelineTheorems.PassMarksPrefix` | src/outbox/relay.ts:83-112 | a committed pass turns exactly the confirmed prefix of its batch from unsent to sent, counts an attempt for it and for the failed row, and touches nothing else |
| `PipelineTheorems.PublishedExactlyOnce` | src/outbox/relay.ts:83-112 | without deaths and failed publishes no row is published twice, and once all is quiet every row ever inserted was published once |
| `PipelineProgress.EveryOrderCanSettle` | src/messaging/consumer.ts:99-143 | from every reachable state a continuation without any failure takes every committed order to its effect and receipt, unless it is dead-lettered |
| `CheckoutPipeline.CommitPlaces` | src/checkout.ts:98-105 | the COMMIT of a checkout places exactly one new order in the pipeline, with the outbox row it stored |
| `CheckoutPipeline.CommittedCheckoutsArrive` | src/checkout.ts:43-108 | in every run of checkouts, relays, consumers and clean-ups together each committed checkout's event is unsent, in transit, dead-lettered or has had effect and receipt, and nothing else has an effect |
| `RequestPipeline.CommitPlaces` | src/orders/orders.service.ts:149-154 | the COMMIT of a request places exactly its new order, and the row the relay will publish is the very event it stored |
| `RequestPipeline.AnsweredOrdersArrive` | src/orders/orders.service.ts:122-165 | in every run of requests, relays, consumers and clean-ups together the order of every successful answer is committed and its event is not lost |
| `Relay.PublishBatch` | src/outbox/relay.ts:83-93 | the publish loop stops at the first failure: the sent ids are the confirmed prefix and the broker holds exactly its events |
| `Relay.RelayOnce` | src/outbox/relay.ts:58-119 | a pass publishes the batch up to the first failure, marks exactly that prefix, counts an attempt for the failed row, and on an error marks nothing |
| `Relay.RelayLoop` | src/outbox/relay.ts:129-144 | k undisturbed passes leave max(0, n - k * batch) unsent rows and pause exactly once for each pass beyond ceil(n / batch); a pass that throws is survived |
| `Relay.AcceptingPass` | src/outbox/relay.ts:68-112 | an accepting pass over a free table lowers the number of unsent rows by the batch size or to zero |
| `Relay.DrainedInCeilPasses` | src/outbox/relay.ts:129-144 | n rows are drained by k accepting passes iff k is at least ceil(n / batch) |
| `Relay.PassIsRun` | src/outbox/relay.ts:58-119 | what the imperative pass does to table, queue and wire, whether it commits or is rolled back before or after its marks, is what a run of the protocol does |
| `Consumer.Tables.ApplyOrderPlacedEffect` | src/messaging/consumer.ts:37-60 | one transaction: inbox row and effect row together, once per event id, or nothing on rollback |
| `Consumer.Tables.HandleMessage` | src/messaging/consumer.ts:99-143 | the outcome of each delivery by its faults and by whether the event was seen before, and the settlement that goes with it; an ack implies effect and receipt |
| `Consumer.RedeliveryIsIdempotent` | src/messaging/consumer.ts:99-143 | any sequence of deliveries of one event with any faults leaves effect and receipt as one delivery would: both if some delivery got through, the effect alone if one committed, nothing otherwise |
| `Consumer.RollbackIsRun` | src/messaging/pg-store.ts:13-29 | a transaction that fails after any of its statements leaves the tables alone and the message goes back, as in the protocol |
| `Consumer.HandlingIsRun` | src/messaging/consumer.ts:99-143 | every delivery, unreadable, failing at any statement, requeued, failing to enqueue or acknowledged, changes tables and queues as the protocol's steps do |
| `Checkout.Database.Checkout` | src/checkout.ts:31-111 | a placed checkout takes the quantity off the product and price times quantity off the buyer and changes nothing else of them; any other changes no row; the four new rows and the verdict are those of the sequential checkout |
| `Checkout.VerdictIs` | src/checkout.ts:37-70 | who is refused and why: the guards on quantity, stock and balance in their order, in both directions |
| `Checkout.SerialConserves` | src/checkout.ts:43-108 | one checkout keeps stock plus units sold and balance plus cents charged, and keeps both non-negative |
| `ConcurrentCheckout.Serializable` | src/checkout.ts:43-108 | every statement-by-statement interleaving leaves the tables as the committed checkouts run one at a time in commit order, each succeeding |
| `ConcurrentCheckout.RefusalsAreSerial` | src/checkout.ts:45-70 | a checkout is refused for stock iff the product is missing or short at that moment, and otherwise for funds, as it would be alone with the database, and changes nothing |
| `ConcurrentCheckout.MoneyAndStockConserved` | src/checkout.ts:43-108 | from any shop, in every reachable state nothing is negative, stock plus units sold and balance plus cents charged are unchanged, and each committed checkout has added one order, item, job and outbox row |
| `ConcurrentCheckout.EveryoneIsChargedTheListPrice` | src/checkout.ts:43-108 | in every reachable state prices, addresses and the set of products and users are the initial ones, and the i-th checkout to commit has an order, item, job and outbox row with the list price, the buyer's id and e-mail, status "paid" and total price times quantity |
| `ConcurrentCheckout.NoDeadlock` | src/checkout.ts:45-70 | from every reachable state the open checkouts can all finish on their own; whenever one is open some step is enabled |
| `Retry.WithRetry` | src/demo-retry.ts:9-28 | the result is that of the one attempt that decides: all before it met 40001 or 40P01 with attempts left, it did not |
| `Retry.BumpIsRetryLoop` | src/demo-retry.ts:14-27 | in every run a bump that committed or gave up decided at the attempt, and with the result, at which the retry loop does on what its attempts met |
| `Retry.NoLostUpdate` | src/demo-retry.ts:30-43 | the balance is the initial one plus the deltas of exactly the committed bumps, each once |
| `Retry.AbortsAreCharged` | src/demo-retry.ts:9-43 | each 40001 abort is charged to a different commit of another bump, so a bump aborts less often than there are bumps |
| `Retry.EnoughAttempts` | src/demo-retry.ts:9-28 | with at most maxAttempts concurrent bumps none gives up |
| `Retry.AllCommit` | src/demo-retry.ts:9-43 | with at most maxAttempts concurrent bumps and no other error every schedule ends within n (2n + 1) steps, and where it ends all have committed and the balance has moved by the sum of all deltas |
| `Retry.GivesUpIffMoreThanMaxAttempts` | src/demo-retry.ts:9-43 | some schedule makes some bump give up iff there are more bumps than attempts |
| `RefreshTokens.RefreshTokenService.Issue` | src/auth/refresh-token.service.ts:42-51 | a new family starts with one unused row expiring in seven days; a stored hash is refused |
| `RefreshTokens.RefreshTokenService.RotateToken` | src/auth/refresh-token.service.ts:53-105 | the imperative transaction does what the rotation of the theorems below does, and reports the rows that a reuse revoked |
| `RefreshTokens.RefusalsAre` | src/auth/refresh-token.service.ts:54-81 | the one reason of every refusal, in both directions: not stored (so also everything that is not 43 base64url characters), revoked, used, over, tested in this order |
| `RefreshTokens.ExpiryIsExact` | src/auth/refresh-token.service.ts:86-93 | in every reachable state each token expires exactly at the earlier of 7 days after its creation and 30 days after its family's start |
| `RefreshTokens.RotatesUntilItsLimits` | src/auth/refresh-token.service.ts:72-96 | the newest token of a family rotates exactly at the instants before both limits, if the family is not revoked and the new token is free |
| `RefreshTokens.RotationHandsOver` | src/auth/refresh-token.service.ts:83-96 | a rotation uses up the presented row and adds one for the same user, family and start with the token handed out |
| `RefreshTokens.FamiliesAreChains` | src/auth/refresh-token.service.ts:42-113 | in every reachable state a family is a chain with exactly one unused row, rows share user, start and revocation, and none expires after 30 days from the start |
| `RefreshTokens.RotatedAtMostOnce` | src/auth/refresh-token.service.ts:75-97 | over a whole run no token is rotated twice |
| `RefreshTokens.RevokedForever` | src/auth/refresh-token.service.ts:72-78 | a revoked family never changes again and every later rotation of it is answered revoked |
| `RefreshTokens.RevocationIsLocal` | src/auth/refresh-token.service.ts:107-113 | revoking a family, by reuse or logout, stamps exactly its unrevoked rows with the instant and reports their number, and leaves every other family as it was |
| `RefreshTokens.ReuseRevokesOnlyItsFamily` | src/auth/refresh-token.service.ts:75-78 | a detected reuse is such a revocation of the token's family |
| `RefreshTokens.RotationIsLocal` | src/auth/refresh-token.service.ts:53-105 | a rotation, whatever its outcome, touches no other family |
| `RefreshTokens.RotationSucceedsIff` | src/auth/refresh-token.service.ts:72-96 | in a reachable table a rotation succeeds iff the token is the newest of its family, unrevoked and unexpired, and the new hash is free |
| `Denylist.AccessDenylist.Revoke` | src/auth/access-denylist.ts:18-25 | a key is written iff the token has time left |
| `Denylist.KeysApart` | src/auth/access-denylist.ts:4-8 | token keys and family keys never meet and are injective |
| `Denylist.RevokedUntilExpiry` | src/auth/access-denylist.ts:18-33 | a revoked token is denied at every instant at which it would still verify, despite whole seconds, and its key is gone within a second after |
| `Denylist.AccessLife` | src/auth/token.service.ts:28-36 | an access token verifies for 600 seconds from the second it was signed in |
| `Denylist.FamilyDenialLasts` | src/auth/access-denylist.ts:27-29 | a family denial is in force for exactly 600 seconds and touches no other key |
| `Denylist.DenialCoversIff` | src/auth/token.service.ts:26-38 | a family denial covers the whole remaining life of a token iff the token's second of signing began no later than the denial |
| `Auth.AuthService.Refresh` | src/auth/auth.service.ts:47-66 | table, denylist and answer after a refresh, with the user gone or the denylist unreachable |
| `Auth.ReplyIsTheNewRow` | src/auth/auth.service.ts:61-65 | the pair handed out holds the token of the one row that was added and an access token of the presented token's family; refusals and errors otherwise |
| `Auth.ReuseOwesDenial` | src/auth/auth.service.ts:50-58 | a refresh that reveals a reuse leaves that family's denial to be written |
| `Auth.AuthService.Logout` | src/auth/auth.service.ts:68-80 | the family is revoked in the database even when the denylist write fails, which alone decides the answer |
| `Auth.LogoutBlocksAccess` | src/auth/auth.service.ts:68-80 | in every run, amid any other requests, a token used for a completed logout never passes the guard again |
| `Auth.GuardIsExact` | src/auth/auth.guard.ts:50-66 | in every reachable state a signed token passes iff the denylist can be read, its 600 seconds are not over, no completed logout used it and its family was not denied within the last 600 seconds |
| `Auth.VerdictsAreLocal` | src/auth/access-denylist.ts:18-33 | a denial or a logout changes the verdict on no token but the family's or its own |
| `Auth.RevocationEndsFamily` | src/auth/auth.service.ts:47-80 | after a logout or a detected reuse, whether or not the denylist is ever written, no refresh token of the family is ever rotated again |
| `Auth.RefreshIsRun` | src/auth/auth.service.ts:47-66 | an undisturbed refresh leaves table and denylist, and hands out, what the protocol's steps do |
| `Auth.LogoutIsRun` | src/auth/auth.service.ts:68-80 | the same for a logout |
| `Auth.ReuseBlocksAccess` | src/auth/auth.service.ts:50-58 | once the denial of a reuse is written, no access token of the family signed until then ever passes the guard again |
| `Limiter.SlidingWindowLimiter.Consume` | src/ratelimit/sliding-window-limiter.ts:60-84 | the set after a call whose script ran, never ran, or ran with its reply lost, and the result the next rows speak about |
| `Limiter.ConsumeIsExact` | src/ratelimit/sliding-window-limiter.ts:60-84 | over all runs an answered call is allowed iff fewer than limit admissions of the whole history lie in the last window, with limit - used - 1 remaining and no wait, or none remaining and a wait; an unanswered call is let through or throws |
| `Limiter.RetryAfterIsLeast` | src/ratelimit/sliding-window-limiter.ts:72-76 | with nothing of that client admitted before, a call a whole number of seconds later is allowed iff that number reaches retryAfterSec |
| `Limiter.DecisionIsPlainCount` | src/ratelimit/sliding-window-limiter.ts:21-42 | for limit >= 1 and a clock that does not go back, after any calls, failed and half-failed ones included, the script allows a call iff fewer than limit of all admissions ever fall in the last window; pruning and expiry are unobservable |
| `Limiter.NoWindowOverfull` | src/ratelimit/sliding-window-limiter.ts:30-37 | at every instant the last window holds at most limit admissions |
| `Limiter.RetryIsExact` | src/ratelimit/sliding-window-limiter.ts:39-41 | with no admission of that client in between, a later call is allowed iff retryMs have passed; the rounded Retry-After suffices |
| `Limiter.NonPositiveLimitFailsOpen` | src/ratelimit/sliding-window-limiter.ts:77-83 | with limit <= 0 the script fails on every call, so a fail-open limiter lets everything through |
| `RedisLock.Lock.Acquire` | src/cache/redis-lock.ts:9-13 | the lock is taken iff nobody live holds it |
| `RedisLock.Lock.Release` | src/cache/redis-lock.ts:15-22 | the lock is removed iff the caller's token is its live owner |
| `RedisLock.OneOwner` | src/cache/redis-lock.ts:4-22 | in every run, at every instant, at most one token owns a name by the record of acquisitions and releases, and it is the stored one |
| `RedisLock.LateReleaseHarmless` | src/cache/redis-lock.ts:4-22 | a release, however late, leaves every other token owning exactly what it owned |
| `RedisLock.RefusedOnlyWhileOwned` | src/cache/redis-lock.ts:9-13 | an acquire is refused iff some token owns the name at that instant |
| `ProductCards.CardKeysApart` | src/products/product-card.ts:31-33 | card keys and lock keys of all products are pairwise distinct |
| `ProductCards.JitterReaches` | src/cache/ttl.ts:5-10 | every whole second in that range can be drawn |
| `ProductCards.ServedIsRecent` | src/products/product-card.service.ts:30-46 | in every run a card served from the cache was stored within the 300 to 360 s its entry was given (an absence within 30 s) and was the database's value when it was loaded |
| `ProductCards.Timings` | src/cache/ttl.ts:11-13 | a read that misses waits for 2000 ms, looks again 25 ms after each refusal and holds the lock it gets for 5000 ms |
| `ProductCards.ReleaseFreesOwnLock` | src/products/product-card.service.ts:72-74 | the release gives back the reader's own lock and nobody else's |
| `ProductCards.AtMost80FailedAcquires` | src/products/product-card.service.ts:55-84 | in every run no waiting reader fails to acquire more than 80 times |
| `ProductCards.EightyIsReached` | src/products/product-card.service.ts:55-84 | the bound is met: with the lock held throughout and no card a reader is refused 80 times and then loads without the lock |
| `ProductCards.LoadsOnce` | src/products/product-card.service.ts:48-91 | for any number of concurrent readers of a cold key, under calm conditions, loadCard runs at most once, exactly once when anyone is answered, and all answers are that load |
| `ProductCards.SlowLoadsPileUp` | src/cache/ttl.ts:11-13 | the lock's lifetime is needed for that: with no failing call at all, loads as slow as the lock lives make k readers load k times |
| `ProductCards.InvalidationCoherentIff` | src/products/product-card.service.ts:41-46 | after invalidate a later read may see a version older than the current one iff an older load is still waiting to store or on its way to Redis, or the delete has not taken effect and an older entry is alive |
| `CardService.StoredUntilExpiry` | src/cache/redis-cache.ts:15-42 | what was stored is found until its time is up or it is deleted, and no other key notices |
| `CardService.InvalidateCards` | src/orders/orders.service.ts:217-223 | exactly the cards of the order's products are dropped, save those whose delete fails |
| `CardService.LoadOnMiss` | src/products/product-card.service.ts:48-85 | amid any steps of others the polling loop makes only steps the protocol allows, takes its reader to its end with the outcome returned, and costs at most 80 attempts, one load and, if it got the lock, one unlock |
| `CardService.GetCard` | src/products/product-card.service.ts:30-39 | a whole read is a run of the protocol from its reader's start to its end with this outcome; a hit costs nothing more |
| `CardService.ReadCosts` | src/products/product-card.service.ts:55-84 | a read that missed tries the lock at most 80 times, loads at most once, unlocks at most once and then last, and answers without a load only from the cache |
| `CardService.AnswerIsRecent` | src/products/product-card.service.ts:30-91 | what such a read answers was the database's value when loaded and, out of the cache, still in the lifetime of its entry |
| `Orders.Manager.InsertOrderWithEvent` | src/orders/orders.service.ts:168-216 | one order for this user and request at list prices with status "created", and one event that repeats it field by field and line by line; or the first unknown product and nothing |
| `Orders.DraftOfIs` | src/orders/orders.service.ts:176-193 | one line per requested item at list price, the total is their sum, the currency is the last product's |
| `Idempotency.StoredKeysCollideIff` | src/orders/orders.service.ts:127 | authenticated (user, key) pairs have distinct stored keys; an anonymous key collides iff the client writes the user's prefix itself |
| `Idempotency.InvStep` | src/orders/orders.service.ts:130-155 | every statement of every request, and every catalogue change, keeps keys, orders, outbox and open transactions consistent |
| `Idempotency.OneOrderPerKey` | src/orders/orders.service.ts:122-165 | in every run of concurrent, failing and retried requests a (user, key) pair has at most one order, and every order exactly one outbox row |
| `Idempotency.SameAnswer` | src/orders/orders.service.ts:157-164 | all successful answers under a key carry the same committed order, at most one of them as new |
| `Idempotency.OtherBodyCreatesNothing` | src/orders/orders.service.ts:161-163 | a request whose body hash differs from that of the key's order has created nothing and is never answered with an order |
| `Idempotency.AnswerIsOwnOrder` | src/orders/orders.service.ts:122-216 | with authenticated callers every successful answer is the caller's own order under its own key, for this body, with the total of its lines as bought |
| `Idempotency.OrdersAsPriced` | src/orders/orders.service.ts:176-213 | in every run every order has status "created", each line at the price its request read for it and the currency read last, and an event that repeats its id, e-mail, total, currency and lines |
| `Idempotency.RolledBackLeavesKeyFree` | src/orders/orders.service.ts:131-138 | a failed attempt changes no table and the next request with its key claims at once |
| `Idempotency.KeysAreForever` | src/migrations/1791400000000-IdempotencyKeys.ts:10-20 | a committed key keeps its hash and order in every continuation |
| `Idempotency.NoDeadlock` | src/orders/orders.service.ts:131-138 | a request that has not ended can move, or the holder of its key can |
| `Idempotency.CreateIdempotent` | src/orders/orders.service.ts:122-165 | tables and answer of one undisturbed call, with unknown products, a used key and a failing commit |
| `Idempotency.ServingIsRun` | src/orders/orders.service.ts:130-164 | every undisturbed call, creating, replaying, refused, failing on an unknown product or at its commit, changes the tables and answers as the protocol's steps do |
| `OrderEvents.HistoryIsYoungest` | src/orders/order-events.service.ts:18-32 | ids count up and the bounded history is always the youngest 200 events |
| `OrderEvents.OrderEventsService.StreamEvents` | src/orders/orders.controller.ts:116-131 | a new stream has been sent, in order, exactly the remembered events of its order with a greater id than the header's, all of them without a header and none for NaN |
| `OrderEvents.OrderEventsService.EmitStatusChanged` | src/orders/order-events.service.ts:18-32 | every open stream of that order is sent the event and no other stream is |
| `OrderEvents.ReplayIs` | src/orders/order-events.service.ts:39-41 | a resuming client is sent nothing that has reached it and everything of its order that the history still holds |
| `OrderEvents.ResumeCompleteIff` | src/orders/orders.controller.ts:116-131 | a resume is complete iff no event of the order has left the history since the point up to which the client was served |
| `OrderEvents.ResumesWithoutGapOrDuplicate` | src/orders/orders.controller.ts:116-131 | over any number of broken connections, during a replay or with events in flight, resuming with at most 200 events after the point served, what reached the client is its order's events in increasing id without gap or duplicate |
| `OrderEvents.CountingOnlyTheAbsenceFails` | src/orders/order-events.service.ts:25-28 | counting only the events emitted while the client is away is not enough: two can make a gap if the connection broke during a replay of 200 |
| `Pagination.SamePageIff` | src/common/pagination.ts:20-42 | index and keyset form give the same page iff the cursor's row is in the table or the cursor is below all of it |
| `Pagination.FetchAt` | src/products/products.service.ts:18-34 | in both forms the page behind the first k rows is the next rows and the cursor behind them |
| `Pagination.WalkVisitsEverythingOnce` | src/common/pagination.ts:20-42 | for limit >= 1 following next_cursor ends and yields the whole table once, in order |
| `Pagination.OrdersWalk` | src/orders/orders.service.ts:34-55 | walking the order list shows a user exactly the orders whose owner he is, each once in ascending id, and an admin the whole table |

## Left out

- HTTP, dependency injection, validation, exception filters, cookies, sessions, the WebSocket gateway: framework code without protocol content.
- Cryptography and codecs (HMAC, argon2, ES256, SHA-256, base64url, JSON): tokens stand for their hashes, cursors and hashes are abstract; freshness of random values is asked for in `Enabled`, and equal hashes meaning equal bodies is a stated hypothesis of `Idempotency.AnswerIsOwnOrder`.
- src/messaging/publisher.ts, amqplib, ioredis and BullMQ internals: a publish returns normally only after a confirm; adding an existing job id changes nothing. Removal of finished receipt jobs after a day, after which the id could be added again, is not modelled.
- Redriving the dead-letter queue, and events that demo scripts publish by hand: a readable message always stems from an outbox row here.
- Lock modes of the relay other than SKIP LOCKED: they exist for demonstrations.
- Statement-level interleaving inside refresh-token transactions: each is one atomic step, and the family properties hold at that granularity. At READ COMMITTED the family update sees only its own statement's snapshot.
- Progress of the relay past a row whose publish always fails: a pass stops at the first failure, so draining is stated for an accepting sink.
- A global order of events across relays, and a single currency per order: the code promises neither.
- Checkouts and requests in one run together: each is run with the pipeline on its own, as if the other drew no order ids meanwhile.
- Card invalidation after `checkout()`: only the orders service invalidates.
- Order creation without a key (src/orders/orders.service.ts:114-120): the same insertion without the claim.
- Deletion of orders, which cascades to their idempotency keys: nothing but demonstration clean-up does it.
- The in-memory event history is lost when the server restarts and ids start again at 1: one server life is modelled.
- Deadlock detection of Postgres (40P01) inside `bump`: one row is involved, so only `Retry.WithRetry` mentions the code.
- Integer overflow of cents, stock and ids, and fractional or exotic numerals (`1e3`, `0x10`) in cursors and product ids.
- Migrations, seeds, shell scripts, backups and the demonstration scripts other than src/demo-retry.ts.
