# Verified model of the cart and checkout back end

A multi-tenant cart and checkout service: carts with denormalised totals, coupons with usage counters,
an idempotent checkout over PostgreSQL row locks and advisory Redis keys, payment and invoice workers
that run at least once, a read-through cart cache and a fixed-window rate limiter. This project models
that behaviour in Dafny and proves what concurrent, retried and crashing callers cannot break.

Money is in integer cents of one currency. A table is a map from primary key to row. A
`transaction.atomic` block commits all its writes or none. Redis is a store apart from the database that
may lose any key at any step.

## How it is organised

| file | content |
|---|---|
| `Schema.dfy`, `Text.dfy` | rows, tables, and `Database`, the tables as statements update them; text without regard to case |
| `Money.dfy` | decimal arithmetic with a 28-digit context, discounts, tax |
| `CartRules.dfy` | line items, totals, the cart mutators |
| `Validation.dfy` | the coupon validator and its rules |
| `CouponRules.dfy`, `CouponLaws.dfy`, `CouponOrder.dfy` | apply, remove and revalidate; the coupon ledger, the price laws, orders of coupons |
| `CouponRace.dfy` | applying a coupon statement by statement |
| `RedisStore.dfy`, `Locks.dfy`, `Idempotency.dfy`, `CanonicalJson.dfy` | Redis, the fenced lock, replay, request hashes |
| `Checkout.dfy` | one checkout, as a function of the database and as the service that runs it |
| `Sales.dfy` | every transaction of a customer at one instant, and the invariant they keep |
| `Protocol.dfy`, `ProtocolSteps.dfy`, `ProtocolLaws.dfy` | any number of checkouts, coupon applications and workers interleaved step by step, and what every run keeps |
| `LogLaws.dfy`, `StockLaws.dfy`, `ReplayLaws.dfy`, `ProtocolProgress.dfy`, `Runs.dfy` | what callers see of it: the log, stock, replay, progress |
| `Payments.dfy`, `Invoices.dfy` | the payment and invoice services and their tasks |
| `Shop.dfy`, `ShopLaws.dfy` | whole runs of customers and stale, duplicated, dying workers |
| `Composition.dfy` | the laws of the shop, of coupon caps and of tenants over interleaved runs |
| `Tenancy.dfy`, `Managers.dfy` | non-interference of tenants, the tenant-aware manager |
| `Cache.dfy`, `Throttle.dfy` | the two stores over Redis |

Services that update rows are classes whose methods change the fields of `Database` or `Redis` and are
proved against functions on values (`Checkout.Atomic`, `CouponRules.Apply`, `Payments.PaymentsAfter`, ...).
The laws are about those functions and about runs of state machines whose steps are those functions. What each
function computes is also stated without it, by an `...Exactly`, `...Mean(s)` or `...InOrder` lemma or in a contract:
amounts, fields and rows, and which error comes when.
`Protocol` cuts the checkout transaction, and the application of a coupon, at every row they lock or write, and
lets any number of them interleave with each other, with edits, payment and invoice workers, crashes, database
aborts, failing Redis commands and losses in Redis. Every such run is proved to be a run of `Shop`, whose
transactions take effect at one instant, so the laws of `ShopLaws` and `Tenancy` hold of it.

## Model

| member | source | states |
|---|---|---|
| ProtocolLaws.EveryRunIsSerial | apps/order/services.py:160-516 | whatever the interleaving, crashes, aborts and Redis losses, the committed database and what workers remember are what the logged transactions give at one instant each, in commit order; each logged outcome is the one of that instant; the store is consistent |
| LogLaws.LogIsWhatCallersSaw | apps/order/services.py:160-300 | every logged checkout is that of one process, with its request, which has exactly that outcome unless it died; none is logged twice; an outcome is not logged iff it is that of a call turned away, aborted or given the result of another call; an application is done iff it is logged |
| LogLaws.EveryAnswerIsSerial | apps/order/services.py:160-300 | what a checkout returned, unless it took no effect, is what the one-instant checkout returns at its place in the log |
| LogLaws.LogRespectsRealTime | apps/order/services.py:160-300 | a call that had ended before another arrived is earlier in the log |
| ProtocolLaws.ExactlyOnceUnderFaultyRedis | apps/order/services.py:327-483 | in every reachable state a cart is checked out iff it has an order and a payment, has at most one of each, and a (tenant, key) has at most one order |
| ProtocolLaws.OneAnswerPerKey | apps/core/idempotency.py:117-199 | two calls with one key that both succeeded had one hash and returned one result, that of an existing order of that key |
| ProtocolLaws.TwoErrorsAreUnreachable | apps/order/services.py:432-443 | no run returns a stale-version error, and none finds a record without its order: the row lock makes the version guard redundant |
| ProtocolLaws.CommitIsAtomic | apps/order/services.py:306-516 | a transaction about to commit, however its steps were interleaved, commits what the one-instant checkout writes |
| ProtocolLaws.ShortIsRefused | apps/order/services.py:386-392 | a transaction that meets a short product midway is refused for the product for which the one-instant checkout is refused |
| ProtocolLaws.TakeAllFrame | apps/order/services.py:386-392 | the stock loop reads and writes only the rows of its items, so transactions on other products commute with it |
| ProtocolProgress.QuietCallIsAnswered | apps/order/services.py:200-300 | after any history, a call that finds its keys free and no transaction open returns the recorded result of its key or what the one-instant checkout returns, and leaves no key behind |
| ProtocolProgress.RacingRetryIsNotReplayed | apps/core/idempotency.py:153-184 | one such schedule: a retry that looks for the record just before the first call commits is told that its cart is checked out |
| ReplayLaws.ReplayedExactlyWhenItLooksAfterTheCommit | apps/core/idempotency.py:152-184 | in any reachable state an open call of a committed key may yet be given its result iff it has not looked for the record yet and has its hash |
| ProtocolProgress.ClearRemovesAnothersSentinel | apps/core/idempotency.py:223-239 | once a call has lost its sentinel, its clearing removes the live one of another call of the key; exactly-once does not depend on it |
| ProtocolProgress.InsideSettles | apps/order/services.py:306-516 | from the Redis lock on, such a call reaches the end of its transaction with that outcome |
| ProtocolProgress.QuietApplicationIsAnswered | apps/coupon/services.py:149-244 | a coupon call that finds no transaction open comes to its end, with the answer and effect of the one-instant application |
| CouponRace.AloneIsAtOnce | apps/coupon/services.py:201-239 | so from any stage of an application that nobody interrupts |
| ProtocolProgress.QuietEditsHappen | apps/cart/services.py:173-437 | an edit that meets no open transaction takes its one-instant effect |
| ProtocolProgress.WorkersNeverWait | apps/payment/services.py:122-451 | a worker step does in the midst of checkouts what it does in the shop |
| ProtocolSteps.RedisFailureIsReported | apps/core/idempotency.py:201-221 | a Redis command failing before the transaction ends the call with that error |
| ProtocolSteps.RedisFailureKeepsTheOutcome | apps/core/locks.py:96-107 | one failing after it changes no outcome |
| ProtocolSteps.AbortLeavesNothing | apps/order/services.py:306-322 | an aborted transaction ends with that error and leaves no row |
| StockLaws.NothingIsOversold | apps/order/services.py:386-392 | per product, initial stock = committed stock + ordered quantity in every reachable state; an open transaction holds exactly its own quantity out of the committed stock, and no two hold one product |
| StockLaws.ReplayOnceCommitted | apps/core/idempotency.py:152-181 | from the commit on, whether its call returned, is still to return or died, and after any further steps, a new call of the key gets the recorded result, or a conflict for another hash, and changes nothing but its own phase |
| StockLaws.ReplayIsForever | apps/core/idempotency.py:152-181 | so once a call has returned, every later call with its key and hash gets an equal result, another hash a conflict; the order stands but for its status |
| Sales.ExactlyOnce | apps/order/services.py:397-483 | what the invariant means to a client: checked out iff ordered iff charged, never twice |
| Sales.CheckoutKeepsStore | apps/order/services.py:306-516 | a checkout keeps the whole invariant: ledger, one order and payment per cart, agreeing amounts, records that lead back to their orders |
| Sales.CheckoutSucceedsExactlyWhen | apps/order/services.py:327-483 | a checkout takes effect iff cart, address and method admit it, every applied coupon passes, the stock suffices for all lines, and the key is unused |
| Checkout.CheckoutRefusals | apps/order/services.py:327-392 | the error of each failing check, in the order of the checks |
| Sales.FirstShortProduct | apps/order/services.py:386-392 | the product named is that of the first line whose quantity, with the lines before it, exceeds the stock |
| Sales.TakeAllMeaning | apps/order/services.py:386-392 | taking stock line by line succeeds iff each product has enough for all its lines together |
| Sales.CheckoutSnapshotsTheCart | apps/order/services.py:397-460 | every field of the order, payment and cart it writes, from the cart and the request; stock falls by the ordered quantities; every other row stays |
| Sales.CheckoutAnswersForTheCart | apps/order/services.py:466-516 | a successful checkout answers with its own order and payment, "pending", 202, the payable amount and the buyer of the cart, and its record gives back that answer |
| Checkout.AtomicGivesReceipt | apps/order/services.py:466-516 | the same for any cart, from its lines and snapshots, with hash, status and response status of the record |
| Sales.EditKeepsStore | apps/cart/services.py:172-437 | so does every edit of a cart, whether it succeeds or raises |
| Sales.EditKeepsLedger | apps/coupon/services.py:149-356 | every edit keeps totals, counters and stacking, and reaches only its own cart and coupon, raising the version of a cart it changes |
| Sales.EditsCallTheirServices | apps/cart/services.py:173-437 | each edit does what its service does with its arguments, and nothing if that raises |
| Sales.OpenedExactly | apps/cart/services.py:79-113 | a cart is made, empty, exactly if the user has no active one in the tenant |
| ShopLaws.OneActiveCartPerUser | apps/cart/models.py:175-185 | over any run a user has at most one active cart per tenant |
| Sales.TakeAllEffect | apps/order/services.py:386-392 | taking stock for any lines lowers each product by its quantity over all lines and never below zero |
| Sales.RevalidationOnlyCounts | apps/order/services.py:373-378 | the revalidation of a consistent cart changes nothing but its version |
| Sales.CheckedOutCartsAreNotFrozen | apps/cart/services.py:356-394 | every mutator succeeds on a checked-out cart exactly when it would on the same cart still active, and changes it alike |
| Checkout.CheckoutService.Run | apps/order/services.py:160-300 | one call: the durable record decides first, then sentinel, then lock, else the transaction takes effect at one instant or not at all; both keys are released |
| Checkout.CheckoutService.RunMarked | apps/order/services.py:230-288 | the sentinel is set before and cleared after, whatever the outcome |
| Checkout.CheckoutService.RunUnderLock | apps/order/services.py:241-268 | a busy lock turns the call away untouched |
| Checkout.CheckoutService.RunCheckoutTransaction | apps/order/services.py:306-516 | the transaction statement by statement equals the one-instant checkout, and an error leaves every table as it was |
| Checkout.CheckoutService.WriteRows | apps/order/services.py:306-516 | its statements alone: all the rows of the one-instant checkout, or its error with the writes left to the rollback |
| Checkout.CheckoutService.Rollback | apps/order/services.py:306 | every table a checkout may write is back at the savepoint |
| Checkout.CheckoutService.PrepareRows | apps/order/services.py:327-392 | its locks, checks, revalidation and stock decrements, with the error of each |
| Checkout.CheckoutService.InsertRows | apps/order/services.py:397-483 | its order, guarded cart update, payment and record |
| Checkout.CheckoutService.TakeStock | apps/order/services.py:386-392 | the loop of conditional updates, or the first short product |
| Checkout.CheckoutService.DecrementStock | apps/order/services.py:387-390 | one conditional update and its row count |
| Checkout.CheckoutService.MarkCheckedOut | apps/order/services.py:432-439 | the guarded update of status and version and its row count |
| Idempotency.ResultRoundTrip | apps/order/services.py:466-536 | the stored payload and the rebuilt result undo each other |
| Idempotency.RecordHoldsTheAnswer | apps/order/services.py:466-484 | the stored row column by column and its body key by key |
| Idempotency.RebuiltFromAnyBody | apps/order/services.py:522-536 | what any stored body gives back: nothing without the two identifiers, defaults for the rest |
| Checkout.DecidedAnswers | apps/core/idempotency.py:152-181 | the answer when the record decides, and when it does |
| Idempotency.IdempotencyManager.CheckForReplay | apps/core/idempotency.py:117-199 | conflict, replay, in progress or fresh, and nothing written |
| Idempotency.IdempotencyManager.MarkInProgress | apps/core/idempotency.py:201-221 | the sentinel is set only if absent |
| Idempotency.IdempotencyManager.ClearInProgress | apps/core/idempotency.py:223-239 | the sentinel goes, whoever set it |
| CanonicalJson.CanonicalIsExact | apps/core/idempotency.py:60-67 | two string dictionaries have one canonical text iff they have the same members, whatever the insertion order |
| CanonicalJson.EndpointsAgree | apps/cart/views.py:864-870 | both checkout endpoints hash one triple alike, and different triples have different canonical texts |
| CanonicalJson.PayloadText | apps/cart/views.py:864-870 | for identifiers in plain characters, the exact text that both endpoints hash: the three keys in ascending order, each with its own value |
| CanonicalJson.ObjectText | apps/core/idempotency.py:66 | colons and commas and nothing else between plain members |
| CanonicalJson.EscapeForms | apps/core/idempotency.py:66 | which characters stand for themselves, take a short escape, or four lower-case digits |
| CanonicalJson.BeforeByFirstDifference | apps/core/idempotency.py:66 | keys are ordered by their first difference, a beginning first |
| CanonicalJson.CharReadsBack | apps/core/idempotency.py:66 | reading undoes the JSON escape of every character, surrogate pairs included, whatever follows |
| CanonicalJson.ObjectIsInjective | apps/core/idempotency.py:66 | two lists of members with one object text are equal |
| CanonicalJson.AscendingIsUnique | apps/core/idempotency.py:66 | there is one sorted order of given members |
| Locks.AcquireLock | apps/core/locks.py:85-91 | set if absent, with the caller's token and a time to live |
| Locks.ReleaseLock | apps/core/locks.py:46-107 | the key goes only if it still holds the caller's token |
| Locks.ReleaseIsFenced | apps/core/locks.py:46-107 | with distinct tokens, in any run with expiry, no release removes another holder's lock |
| Locks.ReusedTokenBreaksTheFence | apps/core/locks.py:85 | and distinct tokens are needed |
| Locks.AtMostOneInside | apps/core/locks.py:56-107 | if no key expires under its holder, at most one process is inside per key |
| CartRules.RecalculateCart | apps/cart/services.py:440-505 | total = sum of quantity times price, discount = sum of snapshots, payable = their difference or zero, version one more; an amount beyond its column is refused |
| CartRules.AddProductToCart | apps/cart/services.py:322-394 | tops up the product's line or adds one, then recalculates; an error changes nothing |
| CartRules.RemoveProductFromCart | apps/cart/services.py:398-437 | deletes the product's lines, then recalculates |
| CartRules.SetBusinessDetails | apps/cart/services.py:173-230 | writes the B2B fields and raises the version |
| CartRules.SetCartDetail | apps/cart/services.py:236-318 | the same for address and payment method |
| CartRules.AddExactly | apps/cart/services.py:322-394 | each error of adding with its condition; else the lines, the amounts and the version it leaves, and no other field or row |
| CartRules.RemoveExactly | apps/cart/services.py:398-437 | the same of removing |
| CartRules.WithoutKeepsOrder | apps/cart/services.py:417-424 | the lines that stay keep their order |
| CartRules.SetDetailExactly | apps/cart/services.py:173-318 | the same of the details: one group of fields and the version |
| CartRules.SumsAreAdditive | apps/cart/services.py:470-476 | totals and quantities add up over any split of the lines |
| CartRules.AddEffect | apps/cart/services.py:357-383 | adding changes one product's quantity by what was asked and the total by that at the price of its line |
| CartRules.RemoveEffect | apps/cart/services.py:417-424 | removing takes one product to zero, leaves the others, and the total falls by exactly what its lines cost |
| CartRules.AddKeepsTotals | apps/cart/services.py:322-394 | adding keeps one line per product and the three amounts in agreement, on that cart alone, with a larger version |
| CartRules.RemoveKeepsTotals | apps/cart/services.py:398-437 | so does removing |
| CartRules.SetDetailKeepsTotals | apps/cart/services.py:173-318 | so do the details |
| ShopLaws.CartTotalsAgree | apps/cart/services.py:440-505 | in every reachable state the three amounts agree with lines and snapshots, one line per product |
| ShopLaws.VersionsGrow | apps/cart/services.py:488-497 | over any run a cart keeps its owner, never reopens, and any change raises its version |
| ShopLaws.CouponsAreCounted | apps/coupon/services.py:410-458 | in every reachable state a counter is the number of carts holding the coupon, within its cap even if that is only in the JSON, and every cart respects the stacking policy |
| Composition.RacingApplicationsRespectTheCap | apps/coupon/services.py:201-239 | with applications cut into statements and racing each other and checkouts, counters equal holders and stay within their caps, and at most one open transaction holds a coupon row |
| CouponRace.StatementIsAtOnce | apps/coupon/services.py:201-239 | each statement of an application keeps it on the way of the one-instant application, refuses with its error, or commits its result |
| CouponRace.StageStays | apps/coupon/services.py:201-239 | commits of others leave what an application has read, as long as its locked rows stay and coupons keep their terms |
| CouponRace.ColumnCapNeedsNoLock | apps/coupon/services.py:442-458 | if two applications had passed their checks on one reading, the conditional UPDATE refuses the use beyond the column cap |
| CouponRace.JsonCapRestsOnTheLock | apps/coupon/services.py:438-440 | a cap that is only in the JSON would then be exceeded: there the row lock is what protects it |
| CouponLaws.ApplyKeepsLedger | apps/coupon/services.py:149-244 | applying counts its own row, respects cap and policy, and touches one cart and one counter |
| CouponLaws.DiscountMeans | apps/coupon/services.py:486-515 | a fixed coupon takes the lesser of its value and what is left, a percentage coupon its share half up |
| CouponLaws.ApplyExactly | apps/coupon/services.py:149-244 | an application succeeds exactly past its checks while the amounts fit, adds one snapshot of that size and one use, and changes nothing else |
| CouponLaws.ApplyRefusals | apps/coupon/services.py:201-232 | the error of each failing check, in the order of the checks |
| CouponLaws.AppliedCouponsWereEarned | apps/coupon/services.py:216-221 | every constraint of an applied coupon was met by its cart, at its subtotal, country and moment |
| CouponLaws.ConflictMeans | apps/coupon/services.py:362-408 | what each stacking policy forbids |
| CouponLaws.UnapplyEffect | apps/coupon/services.py:251-295 | removing an applied coupon always takes one off its counter: the guard at zero never blocks it |
| CouponLaws.UnapplyExactly | apps/coupon/services.py:251-295 | errors and effect of a removal: one row, one use, amounts re-derived |
| CouponLaws.UnapplyKeepsLedger | apps/coupon/services.py:251-295 | removing keeps the ledger |
| CouponLaws.RemoveUndoesApply | apps/coupon/services.py:149-295 | removing what was just applied restores counters and cart but for the version |
| CouponLaws.OrderOfCouponsDoesNotChangeThePrice | apps/coupon/services.py:486-515 | applying the same coupons in two orders that both succeed costs the same: the subtotal less the sum of nominal discounts, or zero |
| CouponOrder.PermutedOrderSucceedsExactlyWhenItFits | apps/coupon/services.py:149-244 | when a list of calls has succeeded in one order, another order of it succeeds iff the discount it comes to, computed from the terms, fits its column; then the price is the same |
| CouponOrder.ApplyAllExactly | apps/coupon/services.py:149-244 | a list of calls succeeds iff each passes its checks alone, each two are compatible under the policy, and the discount fits its column |
| CouponOrder.OneOrderOverflows | apps/cart/services.py:470-497 | two coupons of which one order fits and the other does not |
| CouponLaws.OrderOfCouponsChangesTheSnapshots | apps/coupon/services.py:507-515 | though the snapshots depend on the order |
| CouponLaws.RevalidationWithoutDrift | apps/coupon/services.py:302-356 | with nothing drifted, revalidation accepts iff the coupon had no cap or room for two uses when it was applied |
| CouponLaws.CouponAtItsCapIsRefused | apps/coupon/validators.py:208-231 | a cart holding a coupon at its cap is always refused at checkout |
| CouponLaws.FirstRefusalMeaning | apps/coupon/services.py:330-352 | revalidation accepts iff every applied coupon still passes |
| CouponLaws.RevalidateExactly | apps/coupon/services.py:302-356 | revalidation re-derives the cart if every coupon passes, else raises the error of the first that does not |
| CouponRules.CouponService.ApplyCouponToCart | apps/coupon/services.py:149-244 | the service equals its function on the ledger: its checks in order, or no effect |
| CouponRules.CouponService.EnforceStackingPolicy | apps/coupon/services.py:362-408 | a conflict iff the policy forbids the candidate on this cart |
| CouponRules.CouponService.IncrementUsedCount | apps/coupon/services.py:410-458 | the conditional increment and whether it matched |
| CouponRules.CouponService.RemoveCouponFromCart | apps/coupon/services.py:251-295 | deletes the row, decrements under its guard, recalculates |
| CouponRules.CouponService.RevalidateCartCoupons | apps/coupon/services.py:302-356 | the first failing coupon's error, or the recalculated cart |
| Validation.CouponValidator.constructor | apps/coupon/validators.py:245-359 | the three built-in rules are registered |
| Validation.CouponValidator.Register | apps/coupon/validators.py:121-134 | registering a key again replaces its rule |
| Validation.CouponValidator.Validate | apps/coupon/validators.py:140-180 | the checks in order, then the constraints in insertion order |
| Validation.VerdictMeaning | apps/coupon/validators.py:140-231 | accepted iff active, in the inclusive window, under the column-first cap, and every constraint registered and satisfied; a rejection is the first failing constraint's |
| Validation.CouponAcceptedExactly | apps/coupon/validators.py:140-359 | the built-in validator accepts iff active, in the window, under the cap of the column or else of the JSON, and every constraint met in its own units |
| Validation.BuiltInRulesMean | apps/coupon/validators.py:245-359 | minimum total in currency units, country codes up to case, a cap against the uses, each with its error |
| Validation.RejectionsInOrder | apps/coupon/validators.py:161-237 | which error a rejection has: activity, window, cap, first failing constraint |
| Validation.BuiltInRulesAreBlind | apps/coupon/validators.py:245-359 | the built-in rules judge by the row and the value handed to them, as the next laws require of rules |
| Validation.MoreConstraintsAcceptLess | apps/coupon/validators.py:160-180 | adding constraints never widens acceptance |
| Validation.OrderOfConstraintsIsIrrelevant | apps/coupon/validators.py:160-180 | acceptance does not depend on the order of the constraints |
| Validation.OrderDecidesTheError | apps/coupon/validators.py:160-180 | the reported error does |
| Money.PercentageRoundsOnce | apps/coupon/services.py:501-506 | on amounts that fit their columns the product keeps within 28 digits, so only the final half-up rounding occurs |
| Money.PercentageDiscountBounds | apps/coupon/services.py:501-506 | a percentage discount is within half a cent of exact, at most the total, monotone in total and rate |
| Money.TaxRoundsOnce | apps/invoice/services.py:239-241 | the 15% tax rounds once, half up |
| Money.TaxBounds | apps/invoice/services.py:239-241 | it has the same bounds |
| Money.SecondRoundingBeyondTheColumns | apps/coupon/services.py:501-506 | beyond the column width a second rounding can change the cent |
| Money.HalfUpUnique | apps/coupon/services.py:501-506 | the half-up value is the only integer within the half-open half unit |
| Payments.PaymentService.AuthorizePayment | apps/payment/services.py:122-282 | skipped or refused on what it reads first; otherwise payment and order settle under their own guards, with the answer of the gateway, on whatever other workers have made of the rows meanwhile |
| Payments.PaymentService.FindOrder | apps/payment/services.py:154-159 | the first order of the cart in primary-key order |
| Payments.PaymentService.FlipOrder | apps/payment/services.py:213-221 | the order's own guarded update |
| Payments.PaymentService.CapturePayment | apps/payment/services.py:284-351 | the same for authorised payments: captured, declined or unreachable |
| Payments.PaymentService.VoidPayment | apps/payment/services.py:353-399 | the same for authorised payments; a refusal changes nothing |
| Payments.PaymentService.RefundPayment | apps/payment/services.py:401-451 | the same for captured or succeeded payments |
| Payments.PaymentTasks.AuthorizePayment | apps/payment/tasks.py:72-152 | not found, already done, or what the service does; an unregistered provider fails the payment alone, if it still awaits confirmation |
| Payments.PaymentTasks.ProcessPayment | apps/payment/tasks.py:189-329 | the same transition for the newest payment of the cart of an order |
| Payments.DecisionsInOrder | apps/payment/services.py:139-165 | what each action decides before its gateway call, check after check, each with its error |
| Payments.SettlementFollowsTheAnswer | apps/payment/services.py:189-451 | what each answer makes of payment and order: reference or reason in its own column, guards, and no other row |
| Payments.CallersAreTold | apps/payment/services.py:238-261 | what the caller and the task report for each answer |
| Payments.FirstOrderMeans | apps/payment/services.py:154-159 | there is a first order of the cart exactly if there is any |
| Payments.NewestMeans | apps/payment/tasks.py:239-243 | there is a newest payment of the cart exactly if there is any |
| Payments.OnePaymentIsNewest | apps/payment/tasks.py:239-243 | the payment of a cart that has one is the newest |
| ShopLaws.EveryStepFollowsTheEdges | apps/payment/services.py:122-451 | in every run payments move only along the state machine, each edge writing its own column, and an order becomes paid exactly in the step that makes its payment authorised |
| ShopLaws.OnlyAnswersMovePayments | apps/payment/services.py:122-451 | any step that changes a payment settles a worker on it, and the status it reaches is the one its answer brings |
| ShopLaws.SettlingFollowsTheAnswer | apps/payment/services.py:189-451 | a settlement does to its payment and order what the gateway answered, whatever was read before |
| ShopLaws.OneCallSettlesThePayment | apps/payment/services.py:122-451 | an uninterrupted call on a ready payment takes the gateway's answer through to payment and order |
| Composition.EveryInterleavedStepFollowsTheEdges | apps/payment/services.py:122-451 | so does every step between the steps of open checkouts and applications |
| ShopLaws.AtMostThreeChanges | apps/payment/services.py:122-451 | a payment changes at most three times, however many stale or duplicate workers act |
| ShopLaws.NothingIsRewritten | apps/payment/services.py:197-261 | over any run: an order's snapshot never changes and its status at most once, gateway references are written once, final payments and urls stay |
| ShopLaws.PendingOrders | apps/payment/tasks.py:123-152 | an order awaits payment iff its payment does, or failed because its provider is not registered |
| ShopLaws.UnregisteredProviderStrandsTheOrder | apps/payment/tasks.py:134-152 | that second case happens, and no later step ends it |
| ShopLaws.MoneyAgrees | apps/invoice/services.py:153-256 | in every reachable state order, lines, payment and invoice agree, taxes are 15% half up, and only a paid order has an invoice |
| Composition.TheShopIsKept | apps/order/services.py:306-516 | every state that checkouts, applications and workers reach together satisfies the whole invariant of the shop, with one active cart per user; no row is rewritten |
| Invoices.InvoiceService.GenerateInvoiceForOrder | apps/invoice/services.py:90-206 | one call, with other tasks at work before its row and before its url: complete, rejected, row and number, then url; a failed rendering keeps the number |
| Invoices.InvoiceService.CreateInvoiceRow | apps/invoice/services.py:213-256 | increment and insert, or both rolled back |
| Invoices.RowKeepsNumbers | apps/invoice/services.py:231-254 | the transaction keeps numbers gap-free, and then only a second row for the order can clash |
| Invoices.RowIsIssuedExactly | apps/invoice/services.py:213-256 | the row, number, tax and sequence it writes, or neither |
| Invoices.StartsInOrder | apps/invoice/services.py:106-150 | the first decision of a call, check after check |
| Invoices.UrlIsWrittenExactly | apps/invoice/services.py:193-196 | the rendered url is written once, into that row alone |
| Invoices.NumbersAreCounted | apps/invoice/models.py:33-62 | gap-free means: the numbers are 1 to last_number, as many as invoiced orders |
| ShopLaws.NumbersHaveNoGaps | apps/invoice/services.py:213-256 | in every reachable state, despite concurrent tasks, rollbacks and deaths between phases |
| ShopLaws.OneCallCompletesTheInvoice | apps/invoice/services.py:90-206 | from any reachable state one uninterrupted call completes a paid order's invoice, taking a number only if it has none |
| ShopLaws.NewShopIsConsistent | apps/order/services.py:306-516 | a shop that has sold nothing satisfies the invariant the run theorems start from |
| Cache.CartCache.Get | apps/core/cache.py:78-103 | off, down, missing, expired or corrupt is a miss |
| Cache.CartCache.Set | apps/core/cache.py:106-133 | stored under its own tenant and user for its time to live, or not at all |
| Cache.CartCache.Invalidate | apps/core/cache.py:136-151 | the key is deleted, or nothing happens |
| Cache.Transaction.ScheduleInvalidation | apps/core/cache.py:154-171 | registered, not run |
| Cache.Transaction.Committed | apps/core/cache.py:154-171 | a commit runs exactly the scheduled deletions |
| Cache.Transaction.RolledBack | apps/core/cache.py:154-171 | a rollback runs none of them |
| Cache.ServedExactly | apps/core/cache.py:78-103 | a cart is served iff the cache is on, Redis answers, and its own key holds it and has not expired |
| Cache.ServedWhileItLives | apps/core/cache.py:106-133 | a stored cart is served for its time to live and not a moment longer |
| Cache.EntryIsCurrentUnlessStraddled | apps/core/cache.py:136-171 | with no deletion outstanding, what the cache answers is the current cart iff no later deletion was lost or ran before the entry was stored |
| Cache.UndisturbedRunsAreCoherent | apps/cart/views.py:214-231 | so in runs without straddling readers and lost deletions, answers are current |
| Cache.StaleEntryAfterWrite | apps/cart/views.py:224-231 | a reader that straddles a commit leaves a stale entry |
| Cache.StalenessIsBounded | apps/core/cache.py:78-133 | everything served in any timed run, entries expiring as Redis has it, was the committed cart less than the read-to-store gap plus the time to live before |
| RedisStore.Redis.IncrementExpiring | apps/core/throttling.py:99-105 | the counter grows; its expiry is set once, by its first increment |
| RedisStore.IncrementsAddUp | apps/core/throttling.py:99-105 | increments add up until the end the first one fixed, and start again after it |
| RedisStore.SetIsReadBack | apps/core/cache.py:106-133 | what is set is read until its time to live is over; other keys are not affected |
| Throttle.Limiter.AllowRequest | apps/core/throttling.py:83-120 | allowed iff the counter of the window is within the limit of the parsed rate; an unconfigured scope is always allowed; a malformed rate is an error |
| Throttle.RateReadsBack | apps/core/throttling.py:55-64 | a decimal limit, with or without a minus sign, before a period in either case reads as that many requests per 1, 60, 3600 or 86400 seconds |
| Throttle.MalformedRates | apps/core/throttling.py:55-64 | the error of a rate without a slash, with an unknown period, or without a digit in its limit |
| Throttle.BucketCountsTheWindow | apps/core/throttling.py:99-105 | the counter is the number of requests since the one that opened the window, whose end no later request moves |
| Throttle.FirstOfEachWindowAreAdmitted | apps/core/throttling.py:110-120 | each window admits exactly its first `limit` requests |
| Throttle.AtMostTwiceTheLimit | apps/core/throttling.py:83-120 | any interval as long as the period, ends included, admits at most twice the limit |
| Throttle.TwiceTheLimitIsReached | apps/core/throttling.py:83-120 | and that bound is reached |
| Tenancy.TenantsDoNotInterfere | apps/tenant/managers.py:54-84 | keeping one tenant's rows and workers after any interleaved run gives what that tenant's events alone give: stock, counters, records and invoice numbers included |
| Composition.InterleavedTenantsDoNotInterfere | apps/tenant/managers.py:54-84 | the same of runs in which checkouts, applications and workers of all tenants interleave step by step: a tenant has what its own committed transactions give in the order of the log |
| Tenancy.StepIsSeen | apps/tenant/managers.py:54-84 | one step seen by a tenant is that step on its own rows, or nothing |
| Tenancy.CheckoutSees | apps/order/services.py:327-483 | the same of a checkout |
| Tenancy.EditSees | apps/cart/services.py:356-430 | the same of every edit |
| Managers.TenantManager.GetQueryset | apps/tenant/managers.py:54-59 | exactly the rows of the context's tenant, and no query without a context |
| Managers.TenantManager.Create | apps/tenant/managers.py:61-68 | stamped with the context's tenant unless one is given |
| Managers.TenantManager.GetOrCreate | apps/tenant/managers.py:70-76 | a found row is the tenant's, matches and is the only such one; a row is made iff there is none; two are an error; no other tenant's row changes or counts |
| Managers.TenantManager.UpdateOrCreate | apps/tenant/managers.py:78-84 | the same, and the found row gets the new fields and keeps its tenant |
| Managers.TenantManager.AllTenants | apps/tenant/managers.py:86-88 | the escape hatch: every row |
| Managers.InsertIsScoped | apps/tenant/managers.py:54-68 | an insert is visible to the tenant it is stamped with and to no other |

## Left out

- Currencies: the code never compares the currency of a coupon or product with the cart's, so one currency is assumed.
- Integer widths of quantities, versions and counters are not modelled; money columns are, at fourteen digits.
- Idempotency records do not expire: the repository has no job that removes them. The statuses other than SUCCEEDED exist in the table but no code writes them.
- SHA-256 is an arbitrary function and UUIDs are identifiers drawn fresh; ordering by primary key is ordering of identifiers.
- JSON beyond string-to-string dictionaries; strings with lone surrogates; decimals that are NaN in a coupon's constraint bag.
- Lines of a cart are read in insertion order, where the query leaves the order open; only which of several short products is reported depends on it.
- Row locks on addresses and payment methods do not block anyone in `Protocol`, as nothing modelled writes those rows. Deadlock is not modelled: the database may abort any open transaction at any step.
- In `Protocol` every edit of a cart but the application of a coupon is one instant: each works under the row lock of its cart. The transactions of workers are one instant each, with other steps between their reads and commits.
- Checkout.CheckoutService.Run: one call at a quiet moment with Redis up; interleaving and failing Redis commands are in `Protocol`.
- Product and coupon administration: stock, prices and coupon terms change only through checkouts and coupon services.
- The registry of gateways is fixed after start-up, as its documentation asks; `add_payment_method` and the one-step `process_payment` facade are not modelled.
- Gateways answer anything; whether one is called twice for a payment is not constrained. PDF rendering returns a non-empty url or fails.
- Payments.PaymentTasks.ProcessPayment: the task's own first reads and those of the service it calls are taken together.
- Celery queues and back-off: a task may be started at any time, any number of times, so nothing depends on what was enqueued. The claim that a task is enqueued only after its commit is not stated.
- Sales.EditKeepsStore: the product of `AddProduct` is not checked to exist, as the service receives it as an object; product price is a parameter.
- Throttle.Limiter.AllowRequest: digits and white space beyond ASCII, which `int` also reads, make a limit malformed here.
- Tenancy.TenantsDoNotInterfere, like its form over interleaved runs: assumes identifiers are drawn for one tenant only and that a task runs in the tenant of its payment or order, as the tasks arrange.
- Context variables and their nesting: a manager call is given its context.
- Views, serializers, admin, migrations, logging, metrics, health probes, the address book and the seed command.

Where comments or documentation say more than the code keeps, the code is followed: a checked-out cart is
not immutable (apps/cart/models.py:44), revalidation refuses coupons at their cap without any drift
(apps/coupon/services.py:302-356), a straddling reader can cache a stale cart (README.md:118), coupon and
cart rows are not always locked in one order (apps/coupon/services.py:210), the sentinel is deleted without
a fence (apps/core/idempotency.py:232), a racing retry may be told that its cart is checked out instead of
being replayed (apps/core/idempotency.py:153-184), the cart view replays by key without comparing hashes (apps/cart/views.py:821-842), and an
unregistered provider fails a payment without failing its order (apps/payment/tasks.py:134-152).
