# Orders, escrow and the machinery around them

A model, in Dafny, of the freight marketplace back end: orders made of one to three legs, the
escrow ledger behind them, and five smaller state machines beside it. Each module follows one part
of the program; its first lines name the source files.

**Orders and escrow, one handler at a time.** An order has distinct legs (`Legs`), priced by an
exact integer split (`Pricing`, `SplitSigns`, `Estimates`, over Go's int64 in `GoInt`). A leg is claimed by a
conditional UPDATE (`Orders`), backed by a ledger row per order and payee (`Ledger`), moved on by its
executor, and the order is cancelled with a refund or confirmed with one release per payee. `Protocol`
gives each handler as one step on the tables, with wallet calls that are answered, dropped, or take
effect while their answer is lost. `OrdersService` is the service as a class, its handlers proved to be
those steps, `Answers` tells on the fields whom they answer what and what they change, `Quotes` what an
order costs, and `Permissions` that nothing happens but at the word of somebody entitled to it; `Figures`
is the money row of the dashboard. `Invariants`, `LegMachine`, `Retry` and `Conservation` prove what every run keeps;
`OverEscrow` and `SharedExecutor` where the money stops adding up, on the orders of `Samples`.

**The same handlers, one SQL statement at a time.** `Interleaving` lets any number of handlers be in
flight, each holding what it read earlier; claims stay safe, and so does the money
(`InterleavedMoney`). Every run of handlers is such a schedule (`Refinement`), and every schedule in
which no two handlers of one order overlap is a run (`Serial`). `Races` gives schedules that break what
needs more; `Landings`, for the legs, and `Settlements`, for payout and refund, give exactly what it
needs.

**Around them.** `Wire`: the flat order of the API and its readers. `Otp`, `OtpTightness`, `OtpGuards`,
`Registration`, `Onboarding`, `RegistrationRaces`, `AuthService`, `RefreshTokens`: codes, identity checks, accounts and
token rotation. `Hub`, `HubSends`: the bounded notification channels. `RouteScheduler`: the dashboard's
two-slot route fetches. `Migrations`: the resumable migration runner.

Classes hold the state the program updates in place; their methods are proved against the functions
the lemmas are about. Database tables are sequences or maps of rows, remote calls and clock readings
are parameters, and identifiers matter only up to equality.

Verify with `dafny verify dfyconfig.toml`.

## What the code does not promise

For each of these a lemma gives an input or a schedule, and another the condition under which the
promise does hold.

- Durations are not checked for sign, so a leg can be priced below zero and the escrow of an order
  exceed its estimate (`OverEscrow.NegativeHoursOverEscrow`). Unless answers are lost, it can exactly
  when a leg is priced below zero (`OverEscrow.OverEscrowNeedsANegativeLeg`), which create could test on
  weights and total (`OverEscrow.CreateStoresNegativeLegIff`).
- An escrow whose answer is lost, or that is opened after the caller has given up, stays behind when the
  claim is rolled back (`OverEscrow.LostAnswerStrandsARow`, `Races.LateInsertStrandsARow`), so that with lost answers only an order that costs nothing is
  safe from over-escrow (`OverEscrow.OnlyFreeOrdersAreSafe`). At any moment escrow is within the
  estimate exactly if what was stranded, net, is within what unclaimed legs cost
  (`Conservation.EscrowWithinEstimate`).
- An executor holding two legs of an order has one escrow row, at the price of the first, and a full
  confirmation pays less than the price (`SharedExecutor.SharedExecutorIsUnderpaid`). Without lost
  answers it pays the price exactly when no priced leg was taken that way
  (`Conservation.ConfirmedOrderPaysItsPrice`).
- The comment on `Estimate` says that components are zero for legs the order lacks. They are zero for
  what was not requested: a transport-only order with an equipment request is charged for it
  (`Estimates.StrayRequestIsCharged`); for positive prices the comment holds exactly when everything
  requested has its leg (`Estimates.LegsCarryTheEstimate`).
- Overlapping handlers of one order can take a leg backwards, pay one executor while refunding another,
  and publish a cancelled leg again (`Races`). A schedule never takes a leg backwards exactly if every
  unconditional UPDATE lands on legs no further along than what it writes
  (`Landings.NeverBackwardsIff`). No order is both paid and refunded exactly if no refund lands beside a
  released row and no release beside a refunded one, which the wallet could test
  (`Settlements.NeverBothIff`); the money is in step with the legs at every point exactly if every
  landing keeps it so (`Settlements.AlwaysFollowIff`). For all of these the guards in the WHERE clauses
  of the orders service would do (`Landings.GuardedUpdatesSuffice`), and so does keeping handlers of one
  order apart (`Serial.SerialPerOrderIsSound`).
- Two overlapping registrations of one rejected phone can overwrite the account the first was approved
  for (`RegistrationRaces.ApprovedIsOverwritten`). None does exactly when every such UPDATE finds the
  row still rejected (`RegistrationRaces.OnlyRejectedReplacedIff`), as when registrations of one phone
  are kept apart (`RegistrationRaces.SerialPerPhoneSparesLive`).
- The OTP limit and the attempt limit are read before they are acted on: overlapping requests exceed
  them by their number minus one, and by no more (`Otp.WindowIsBounded`, `Otp.AttemptsAreBounded`,
  `OtpTightness`). A schedule keeps to them exactly if what was read still holds at each write
  (`OtpGuards.WindowIff`, `OtpGuards.AttemptsIff`).
- A refresh in the second of the sign-in hands out the token it has just revoked
  (`RefreshTokens.SameSecondRefreshIsDead`); otherwise the token handed out is live
  (`RefreshTokens.SavedTokenIsLive`).
- A migration whose name sorts before an applied one is run after it
  (`Migrations.LateNameRunsOutOfOrder`); the condition is `Migrations.InOrderIffNewNamesSortLast`.

The table of executor moves contains `delivered -> completed`, so an executor can complete a leg
before the client confirms: a completed leg does not mean released money, only the converse
(`Invariants.EveryRunIsSound`).

## Model

| member | source | states |
|---|---|---|
| `Legs.LegsFor` | `internal/orders/legs.go:6-25` | which legs an order type calls for, each once and in canonical order; none exactly for an unknown type |
| `Legs.TransitionsAreForward` | `internal/orders/legs.go:36-55` | the transition table, compared entry by entry with its intent: an allowed move goes strictly forward, and which forward moves are allowed |
| `Orders.Order.ReadyMeansEveryLegDone` | `internal/orders/legs.go:58-68` | an order is ready for confirmation exactly if it has legs and each is delivered or completed |
| `GoInt.MulIsWrappedProduct` | `internal/orders/pricing.go:139` | Go's int64 product, by repeated wrapped addition, is the true product reduced to 64 bits, for all operands |
| `GoInt.QuotientIsFloor` | `internal/orders/pricing.go:139` | division by repeated subtraction rounds down for non-negative operands |
| `Pricing.SplitTotal` | `internal/orders/pricing.go:111-145` | the loops over weights and parts compute, with wrap-around, the split the theorems below are about |
| `Pricing.LargestOf` | `internal/orders/pricing.go:149-157` | the scan finds the first leg of greatest weight |
| `Pricing.WeighLegs` | `internal/orders/pricing.go:118-124` | the first loop: every weight and their wrapped sum |
| `Pricing.ShareEvenly` | `internal/orders/pricing.go:128-132` | the even branch hands every leg the same share and knows what it handed out |
| `Pricing.ShareByWeight` | `internal/orders/pricing.go:137-142` | the proportional branch hands every leg its truncated share and knows what it handed out |
| `Pricing.SplitIsExact` | `internal/orders/pricing.go:104-145` | for any integer weights and totals, negative ones and overflow included, distinct legs receive parts that sum to the total in int64 |
| `Pricing.StoredPartsSumExactly` | `internal/orders/pricing.go:104-107` | parts that fit their columns sum to the total exactly, not merely modulo 2^64 |
| `Pricing.RepeatedLegLosesMoney` | `internal/orders/pricing.go:138-143` | distinctness is needed: with a repeated leg half of the total is lost |
| `Pricing.SplitIsFair` | `internal/orders/pricing.go:126-144` | without overflow: no part is negative, every leg but the largest gets exactly its share rounded down, and the largest less than one UZS per leg above its own |
| `Pricing.HeavierGetsNoLess` | `internal/orders/pricing.go:137-157` | a strictly heavier leg never gets less than a lighter one |
| `Pricing.RemainderIsSmall` | `internal/orders/pricing.go:137-143` | what rounding leaves over is at least 0 and at most one UZS less than the number of legs |
| `Pricing.RoundingLoss` | `internal/orders/pricing.go:137-142` | the same for any prefix of legs and any weights, by induction over the legs |
| `Pricing.SplitOfOwnCostIsIdentity` | `internal/orders/pricing.go:104-145` | splitting the sum of the components returns the components, negative ones included |
| `Estimates.LegsCarryTheEstimate` | `internal/orders/pricing.go:76-93` | for positive prices without overflow: the estimate charges nothing for absent legs, and the weights of the legs add up to it, if and only if everything the request asks for has its leg |
| `Estimates.CarriedUnlessStray` | `internal/orders/pricing.go:76-93` | of any request, negative and overflowing ones included: the weights of the legs add up to the estimate exactly if what absent legs are charged wraps to zero |
| `Estimates.OptionsAreNeverStray` | `internal/orders/legs.go:6-25` | with transportWithOptions everything requested has its leg, so the whole estimate is carried |
| `SplitSigns.SplitIsNonNegativeIff` | `internal/orders/pricing.go:111-145` | while nothing overflows: the split prices some leg below zero exactly if the total is negative or a weighed share is a whole UZS or more below zero |
| `SplitSigns.EveryShare` | `internal/orders/pricing.go:111-145` | of any weights and total, overflow included: every leg but the first of the heaviest gets its weighed part truncated, or, when the weights sum to nothing, an equal part |
| `Quotes.StoredPrice` | `internal/orders/handler.go:115-130` | the estimate create stores: a positive shown price as it is; otherwise the larger of the components' sum and the tariff minimum_order, or 100 000 where there is none |
| `Quotes.ComponentsAre` | `internal/orders/pricing.go:76-93` | each component is what was asked for times the tariff row of its key, or 250 000 and 45 000 where there is none |
| `Quotes.StoredParts` | `internal/orders/handler.go:141-157` | the stored leg prices are the split of that estimate by those components |
| `Quotes.SmallOrderCostsTheLeast` | `internal/orders/pricing.go:96-102` | one worker for one hour is stored at 100 000, not 45 000 |
| `Estimates.StrayRequestIsCharged` | `internal/orders/pricing.go:76` | a transport-only order that also asks for equipment is charged for it, all of it paid to the transport leg |
| `Legs.CancellableUpToAccepted` | `internal/orders/handler.go:690-698` | a leg can be called off exactly while it has not moved past accepted, or is called off already |
| `Ledger.Wallet.Create` | `internal/wallet/store.go:75-92` | inserts the row unless the pair has one or the columns refuse it, says which, and answers with the row of the pair |
| `Ledger.Wallet.Release` | `internal/wallet/store.go:97-106` | the held row of the pair, if there is one, becomes released; every other row is as before; answers with the current row of the pair, or none if there is none |
| `Ledger.Wallet.RefundOrder` | `internal/wallet/store.go:110-120` | refunds exactly the held rows of an order and returns those that Figures.RefundAnswers tells |
| `Ledger.Wallet.OpenEscrow` | `internal/wallet/handler.go:115-171` | check, look up, charge, commission, insert: the answer and the table for every outcome of the charge |
| `Ledger.Wallet.MoneyStats` | `internal/wallet/store.go:180-188` | the three figures are the three sums over the table, which Figures ties to every change of a row |
| `Ledger.MoneyIsAccountedFor` | `internal/wallet/store.go:180-188` | all money ever escrowed equals credited + fees + held + refunded, in every table |
| `Figures.ReleasedFigures` | `internal/wallet/store.go:97-188` | releasing a held row raises credited by the amount less the commission and fees by the commission, and lowers held by the amount |
| `Figures.RefundedFigures` | `internal/wallet/store.go:110-188` | refunding it lowers held by the amount and touches neither of the others |
| `Figures.InsertedFigures` | `internal/wallet/store.go:75-188` | a new row raises held by its amount and touches neither of the others |
| `Figures.RefundFigures` | `internal/wallet/store.go:110-188` | the refund of an order lowers held by exactly what the order had in escrow |
| `Figures.ReleaseIsOfOneRow` | `internal/wallet/store.go:97-106` | with one row per pair, the release of a pair is of that row |
| `Figures.RefundAnswers` | `internal/wallet/store.go:110-120` | a refund answers with the rows it refunded: all of them, each once, in table order |
| `Ledger.Existing` | `internal/wallet/store.go:67-70` | finds a row of the pair whenever there is one |
| `Ledger.LedgerIsSafe` | `internal/wallet/store.go:75-120` | over any sequence of the three statements: at most one row per (order, payee), amounts, commissions and parties never change, a row leaves held at most once and for good |
| `Ledger.CreatesShareOneRow` | `internal/wallet/store.go:72-92` | any two successful creates for a pair, whatever ran in between, are answered with the same row, and the second changes nothing |
| `Ledger.CommissionIsAPercentage` | `internal/wallet/handler.go:158` | for 0 to 100 percent of a storable amount the product does not wrap, the commission is the percentage rounded down, and lies between 0 and the amount |
| `Ledger.CommissionPerLeg` | `internal/wallet/handler.go:158` | commissions taken leg by leg fall short of the commission on the whole by at least 0 and at most one UZS less than the number of legs |
| `Ledger.FeesBounded` | `internal/wallet/handler.go:158` | the same bound in exact hundredths, for any number of legs |
| `Orders.Order.LegNames` | `internal/orders/store.go:76-82` | lists each leg of the order once |
| `Orders.Order.Executors` | `internal/orders/handler.go:660-671` | exactly the people holding a leg |
| `OrdersService.Service.Insert` | `internal/orders/store.go:398-466` | the transaction stores the whole priced order or, when an identifier, a check or the range of any numeric column refuses, nothing |
| `OrdersService.Service.ClaimLeg` | `internal/orders/store.go:471-501` | claims exactly a published unclaimed leg, and says why not otherwise |
| `OrdersService.Service.ReleaseLegClaim` | `internal/orders/store.go:505-511` | unconditionally publishes the leg again, unclaimed |
| `OrdersService.Service.UpdateLegStatus` | `internal/orders/store.go:515-527` | unconditionally sets the status, and reports a missing leg |
| `OrdersService.Service.UpdateAllLegs` | `internal/orders/store.go:530-552` | CompleteAllLegs and Cancel: every leg of the order gets the status and keeps its executor and price; every other order, and everything else of this one, is as before |
| `OrdersService.Service.CreateOrder` | `internal/orders/handler.go:92-166` | the handler, statement by statement, is the create step, whose answers and effect are in Answers and whose price is in Quotes |
| `OrdersService.Service.AcceptLeg` | `internal/orders/handler.go:241-337` | claim, escrow and roll-back together are the accept step: assigned exactly if the wallet answered that the money is held, for every way the call can end |
| `Orders.RollbackRestores` | `internal/orders/store.go:503-511` | the unconditional roll-back of a claim just made restores the table exactly |
| `OrdersService.Service.UpdateStatusOf` | `internal/orders/handler.go:366-419` | the handler is the status step, refusals included |
| `OrdersService.Service.CancelOrder` | `internal/orders/handler.go:421-469` | the guard loop, the update and the refund are the cancel step, whose answers and effect are in Answers |
| `OrdersService.Service.ConfirmCompletion` | `internal/orders/handler.go:471-523` | the guard, the update and one release per payee, some of them failing, are the confirm step, whose answers and effect are in Answers |
| `OrdersService.Service.Payees` | `internal/orders/handler.go:661-671` | the distinct executors of the order, each once |
| `Answers.CreateAnswers` | `internal/orders/handler.go:92-166` | create refuses exactly an unknown type or a missing address, fails exactly on what an identifier or a column refuses, and changes nothing but the order it stores |
| `Answers.NewOrderFields` | `internal/orders/store.go:398-466` | a stored order is its caller's, of the type asked for, paid as asked or by Payme, its legs those of the type, published and free |
| `Answers.AcceptAnswers` | `internal/orders/handler.go:241-294` | each refusal of accept, on the fields and in order: not the executor nor an administrator, no order, no leg, no licence, taken, not published; a refusal changes nothing |
| `Answers.AcceptEffect` | `internal/orders/handler.go:295-337` | past those: assigned exactly if the wallet answered that the money is held, declined exactly if it answered so; the one row opened is from the client to the executor at the price of the leg |
| `Answers.EscrowAnswers` | `internal/wallet/handler.go:115-171` | the wallet's create: every answer and the one row it may add |
| `Answers.UpdateAnswers` | `internal/orders/handler.go:366-419` | only the executor of a leg or an administrator may move it, along the table; a refusal changes nothing |
| `Answers.UpdateEffect` | `internal/orders/handler.go:405-419` | and then that leg has the status, and nothing else has changed |
| `Answers.CancelAnswers` | `internal/orders/handler.go:421-446` | only the client or an administrator may cancel, while no leg is past accepted; a refusal changes nothing |
| `Answers.CancelEffect` | `internal/orders/handler.go:443-453` | and then every leg is cancelled and, if the wallet was reached, exactly the held rows of the order are refunded |
| `Answers.ConfirmAnswers` | `internal/orders/handler.go:471-492` | only the client or an administrator may confirm, when there are legs and all are delivered or completed; a refusal changes nothing |
| `Answers.ConfirmEffect` | `internal/orders/handler.go:493-513` | and then every leg is completed and exactly the held rows of leg holders whose release was reached are released |
| `Permissions.StrangersAreRefused` | `internal/orders/handler.go:421-480` | a confirmation or cancellation by a stranger to the order is answered Forbidden and changes nothing |
| `Permissions.EverySettlementIsAskedFor` | `internal/orders/handler.go:421-513` | over every run: a row was released by a confirmation of its order's client or of an administrator that reached its payee, or refunded by such a cancellation |
| `Permissions.EveryHolderAskedForIt` | `internal/orders/handler.go:241-294` | over every run: whoever holds a leg was licensed, and took it, or an administrator did for them |
| `Permissions.OnlyTheEntitledTouch` | `internal/orders/handler.go:241-523` | whatever step changes a leg is one its caller was entitled to |
| `Invariants.EveryRunIsSound` | `internal/orders/handler.go:241-337` | over every run, wallet calls failing in any way: leg prices sum to the estimate, a claimed leg has a row for its executor, a released row means all legs completed, a refunded row all cancelled; one row per pair |
| `Invariants.NeverPaidAndRefunded` | `internal/orders/handler.go:421-523` | no order ever has both a released and a refunded row, and an order neither completed nor cancelled has only held ones |
| `Invariants.NewOrderOk` | `internal/orders/handler.go:141-157` | a stored order has the legs its type calls for, and its leg prices sum to its estimate |
| `Invariants.StepKeepsInv` | `internal/orders/handler.go:92-523` | each of the five handlers keeps that invariant |
| `Invariants.AcceptKeepsInv` | `internal/orders/handler.go:297-318` | accepting keeps it, whichever way the wallet call ends |
| `Invariants.CancelKeepsInv` | `internal/orders/handler.go:433-453` | cancelling keeps it, the refund reached or not |
| `Invariants.ConfirmKeepsInv` | `internal/orders/handler.go:483-513` | confirming keeps it, whichever releases are reached |
| `Invariants.UpdateKeepsInv` | `internal/orders/handler.go:387-403` | an executor's update keeps it, the move to completed included |
| `LegMachine.LegEffect` | `internal/orders/handler.go:241-523` | all that one handler call can do to a leg: nothing, claim, one allowed move, completion or cancellation |
| `LegMachine.LegsOnlyAdvance` | `internal/orders/legs.go:27-55` | over every run: rank never decreases, completed and cancelled are absorbing, price and executor stay; orders never disappear |
| `LegMachine.RunAdvances` | `internal/orders/legs.go:27-55` | the same from any state the invariant allows |
| `LegMachine.AtMostFiveUpdates` | `internal/orders/legs.go:36-45` | a leg sees at most five successful status updates in its life, a published or cancelled one none |
| `Retry.ConfirmConverges` | `internal/orders/handler.go:493-513` | once a confirmation has passed its checks in a reachable state, after any steps whatsoever, on any orders and with any failed attempts among them, one confirmation that reaches everybody leaves the order and its rows exactly as a full first one would have |
| `Retry.ConfirmAgain` | `internal/orders/legs.go:58-68` | a confirmation can be repeated, and two in a row release what either reached, once |
| `Retry.CancelConverges` | `internal/orders/handler.go:433-453` | the same for cancellations and their refunds |
| `Retry.AnythingLeadsOn` | `internal/orders/handler.go:92-523` | no step of any handler leads a completed or cancelled order, or its money, anywhere but towards that end |
| `Retry.CancelAgain` | `internal/orders/handler.go:690-698` | a cancelled order can be cancelled again, with the same end |
| `Retry.AttemptsShrinkHeld` | `internal/wallet/store.go:97-120` | an attempt never raises the number of held rows of the order, and leaves it the same only if it changed no row |
| `Conservation.EveryRunBalances` | `internal/orders/handler.go:297-318` | over every run, lost answers included: an order's escrow is the price of its claimed legs, plus what lost answers stranded, less what was taken over existing rows |
| `Conservation.EscrowWithinEstimate` | `internal/orders/handler.go:297-306` | in every reachable state: escrow is within the estimate if and only if what was stranded, less what was taken over, is within the price of the legs still unclaimed; so it is when no leg is negative and no more was stranded than taken over |
| `Conservation.ConfirmedOrderPaysItsPrice` | `internal/orders/handler.go:498-513` | once a confirmation reached everybody, over every run: rows of executors are released and all others held; payouts plus commissions are the price plus what was stranded, less what was taken over, less what is still held; without lost answers they are the price if and only if no priced leg was taken over an existing row, as with distinct executors |
| `Conservation.AcceptBalances` | `internal/wallet/handler.go:126-133` | an accept, however its call ends, moves its leg price into escrow and the leg to its executor, or strands the price, or takes the leg over an existing row, and the balance accounts for each |
| `Conservation.SettleBalances` | `internal/wallet/store.go:97-120` | status updates, cancellations and confirmations keep the balance |
| `Conservation.ConfirmedRows` | `internal/orders/handler.go:498-513` | after such a confirmation the rows of its executors are released and every other row of the order is held |
| `Conservation.ConfirmedClaims` | `internal/orders/handler.go:483-493` | and every leg is claimed, by the same people as before |
| `Conservation.OnlyHoldersArePaid` | `internal/orders/handler.go:498-513` | over every run a released row belongs to somebody who holds a leg of the order |
| `Conservation.NeverNegative` | `internal/orders/handler.go:297-318` | neither of the two corrections is ever negative |
| `OverEscrow.OverEscrowNeedsANegativeLeg` | `internal/orders/pricing.go:84-91` | an order just created can be over-escrowed by some continuation without further lost answers if and only if one of its legs is priced below zero |
| `OverEscrow.OnlyFreeOrdersAreSafe` | `internal/orders/handler.go:308-311` | with lost answers among what may happen, no continuation over-escrows an order just created if and only if all its legs are free |
| `OverEscrow.CreateStoresNegativeLegIff` | `internal/orders/handler.go:141-157` | while nothing overflows: create stores a leg priced below zero exactly if the test of SplitSigns, on weights and total, fails |
| `OverEscrow.NegativeHoursOverEscrow` | `internal/orders/pricing.go:88-91` | from the empty tables: labour booked for a negative number of hours, accepted by everybody, and more is held than the order costs |
| `OverEscrow.EverybodyAcceptsOverEscrows` | `internal/orders/handler.go:297-306` | with a negative leg, three accepts by three people, no answer lost, escrow more than the estimate |
| `OverEscrow.NegativeHoursPriceBelowZero` | `internal/orders/pricing.go:88-91` | a family of accepted requests with such a leg |
| `OverEscrow.LostAnswerStrandsARow` | `internal/orders/handler.go:308-311` | from the empty tables: an escrow whose answer is lost stays held after the roll-back, and the next accept doubles the escrow of the order |
| `SharedExecutor.SharedExecutorIsUnderpaid` | `internal/wallet/handler.go:126-133` | from the empty tables: one person takes both legs of an order of 150, delivers both, and the full confirmation pays 100 |
| `Interleaving.EveryScheduleClaimsSafely` | `internal/orders/store.go:468-511` | under every interleaving of statements: per leg, successful claims minus roll-backs is 0 or 1, the executor is the last successful claimant |
| `Interleaving.OnlyTheClaimantUndoes` | `internal/orders/store.go:503-511` | a leg loses its executor only to the roll-back of the very accept that set it |
| `Interleaving.NextKeepsClaims` | `internal/orders/store.go:471-552` | each single statement of each handler keeps that |
| `Interleaving.WinKeepsClaims` | `internal/orders/store.go:471-479` | the conditional UPDATE can only win a leg nobody holds |
| `InterleavedMoney.LedgerSafeUnderInterleaving` | `internal/wallet/store.go:75-120` | under every interleaving, inserts after the roll-back included, the ledger keeps one row per pair, and no row is lost, re-priced, re-addressed or settled twice |
| `InterleavedMoney.NextIsOneStatement` | `internal/wallet/handler.go:126-165` | a step of a schedule is at most one ledger statement |
| `InterleavedMoney.AssignedLegsAreBacked` | `internal/orders/handler.go:295-318` | under every interleaving, whichever calls fail or outlive their caller: a leg whose accept came to a good end has a row for the order and its executor, so none is assigned with nothing behind it |
| `InterleavedMoney.EveryScheduleBalances` | `internal/orders/handler.go:297-318` | under every interleaving, lost answers and inserts after the roll-back included: an order's escrow is the price of its legs whose accept came to a good end, plus what was stranded, less what was taken over |
| `InterleavedMoney.EscrowWithinEstimateUnderInterleaving` | `internal/orders/handler.go:297-306` | hence it is within the estimate if and only if the net of the two is within what the remaining legs cost |
| `Refinement.HandlerGrainRefinesStatementGrain` | `internal/orders/handler.go:92-523` | every run at handler grain is a schedule at statement grain, the one in which nobody overlaps: same tables |
| `Refinement.HandlerIsItsStatements` | `internal/orders/handler.go:241-523` | each handler, run alone statement by statement, ends where its step ends |
| `Refinement.AcceptAlone` | `internal/orders/handler.go:280-318` | in particular accept, with its claim, lookup, charge, insert and roll-back, for every outcome of the call |
| `Refinement.ConfirmAlone` | `internal/orders/handler.go:493-513` | and confirm, paying one by one |
| `Serial.SerialPerOrderIsARun` | `internal/orders/handler.go:92-523` | conversely: any schedule whose orders are ones requests create, in which no two handlers of one order overlap and no call outlives its caller, those of different orders interleaving at will, has the tables of some run of whole handlers, wherever no accept is between its claim and its end |
| `Serial.QuietOrdersAreAsInARun` | `internal/orders/handler.go:92-523` | at every other point too, but for the legs those accepts have claimed: all money, and every order without one, is as in that run |
| `Serial.SerialPerOrderIsSound` | `internal/orders/handler.go:92-523` | so such schedules keep what Invariants proves of runs |
| `Serial.StepIsLinked` | `internal/orders/store.go:468-552` | statement by statement: the run takes one step or none, and stays linked to the schedule |
| `Landings.ForwardIffLandsWell` | `internal/orders/store.go:503-552` | a statement takes no leg backwards if and only if each leg it writes is, where the UPDATE lands, no further along than what it writes and not finally something else, or, for a roll-back, not yet at work |
| `Landings.AdvancesIffLandsAhead` | `internal/orders/store.go:503-552` | the same if-and-only-if for the stricter order of LegMachine, which a roll-back never keeps while there is a claim to undo |
| `Landings.NeverBackwardsIff` | `internal/orders/store.go:503-552` | a whole schedule never takes a leg backwards if and only if all its landings are such |
| `Landings.GoodLandingsGoForward` | `internal/orders/legs.go:27-55` | in such a schedule every leg only goes forward between any two points: price fixed, work never less, final statuses final, executor fixed once at work |
| `Landings.GoodLandingsExcludePayAndRefund` | `internal/orders/handler.go:421-523` | and, whichever calls fail, a released row then means every leg is completed, a refunded one that every leg is cancelled; exactly when that holds is the theorem of Settlements |
| `Landings.NeverPaidAndRefundedInterleaved` | `internal/orders/handler.go:421-523` | so no order then has both; exactly when none has is the theorem of Settlements |
| `Landings.GuardedUpdatesSuffice` | `internal/orders/store.go:503-552` | all landings are such when what each handler read still holds where its UPDATE lands, the condition missing from the WHERE clauses |
| `Settlements.NeverBothIff` | `internal/wallet/store.go:97-120` | under every interleaving, whichever calls fail: no order has both a payout and a refund if and only if no refund lands on a held row beside a released one of its order, and no release on a held row of its payee beside a refunded one |
| `Settlements.StepBothIff` | `internal/wallet/store.go:97-120` | statement by statement: the landing keeps payout and refund apart exactly under that test, and nothing repairs a violation |
| `Settlements.AlwaysFollowIff` | `internal/orders/handler.go:421-523` | at every point of a schedule released rows belong to completed orders and refunded rows to cancelled ones, if and only if the wallet settles only what the legs then call for and no UPDATE of the legs takes back what was settled for |
| `Settlements.GoodLandingsStayInStep` | `internal/orders/store.go:503-552` | landings that take no leg backwards meet that condition |
| `Settlements.InStepNeverBoth` | `internal/orders/handler.go:421-523` | and where it is met no order is both paid and refunded |
| `Races.StaleUpdateMovesBackwards` | `internal/orders/store.go:513-527` | a schedule from the empty tables in which a status update that read early takes a leg from completed back to in transit, and its executor is paid nevertheless |
| `Races.CancelRacesConfirm` | `internal/orders/store.go:529-552` | a schedule from the empty tables that pays one executor of an order and refunds the money of the other |
| `Races.RollbackRepublishesCancelledLeg` | `internal/orders/store.go:503-511` | a schedule from the empty tables in which a roll-back publishes a cancelled leg again |
| `Races.LateInsertStrandsARow` | `internal/orders/handler.go:297-318` | a schedule from the empty tables in which the wallet inserts after the accept has timed out and rolled back |
| `Wire.LegsOf` | `dashboard/src/lib/format.ts:94-110` | the legs the dashboard draws are the stored ones, with their statuses and in canonical order, for every order of proper shape with this flat form |
| `Wire.FlattenLosesNoLeg` | `internal/orders/store.go:99-136` | the drawn list equals the stored one if and only if the legs fit the order type |
| `Wire.ReadBackInvertsFlatten` | `internal/orders/store.go:96-136` | the flat order gives back, leg by leg, existence, status and executor |
| `Wire.DashboardShowsEveryLeg` | `internal/orders/store.go:86-136` | in every reachable state the dashboard shows every leg of every order |
| `Wire.ReviewsNeedEveryLeg` | `internal/reviews/handler.go:177-190` | the check on the flat order holds exactly if the order has legs and all are completed |
| `Wire.EveryOrderIsOnOneTile` | `internal/orders/store.go:358-373` | in every reachable state each order is exactly one of active, completed and wholly cancelled, and the counts add up |
| `Wire.CreatedTile` | `internal/orders/store.go:358-373` | a new order counts one more, and active |
| `Wire.ConfirmedTile` | `internal/orders/store.go:358-373` | a confirmation moves an order from active to completed |
| `Wire.CancelledTile` | `internal/orders/store.go:358-373` | a cancellation takes it from active to neither |
| `Wire.CompletedOrdersStay` | `internal/orders/store.go:358-373` | completed and cancelled orders stay so over every run |
| `Otp.OtpStore.CreateOTP` | `internal/auth/store.go:83-107` | sends a code exactly if fewer than the limit were created in the last ten minutes, or the limit is off |
| `Otp.OtpStore.VerifyOTP` | `internal/auth/store.go:139-183` | the verdict in the order of the checks; a right one verifies the row, a wrong one counts one more attempt, and no other row changes |
| `Otp.JudgeAnswers` | `internal/auth/store.go:122-183` | every verdict, on the fields: right exactly for the code sent, for 7777 where the master code is allowed, or for the test code where the phone is listed or all are; wrong otherwise |
| `Otp.OnlyTheCodeSent` | `internal/auth/store.go:122-136` | without the master code, and for a phone not listed, only the code sent is right |
| `Otp.RequestsAre` | `internal/auth/store.go:83-107` | a code lives 120 seconds and fewer than the limit were created in the 600 seconds before it |
| `Otp.MethodsAreTwoStatements` | `internal/auth/store.go:83-183` | each store method is its two statements run back to back |
| `Otp.WindowIsBounded` | `internal/auth/otp.go:32-36` | with at most k requests of a phone overlapping, no half-open ten-minute window holds more than limit + k - 1 of its codes; the clock may jump between requests |
| `OtpTightness.OverlapExceedsTheLimit` | `internal/auth/store.go:85-106` | the bound is met, for every limit and every k: a schedule with at most k requests overlapping that sends limit + k - 1 codes within one window |
| `OtpGuards.WindowIff` | `internal/auth/store.go:83-107` | of any single schedule whose clock does not run backwards: no window ever holds more than the limit if and only if every insert finds fewer codes in the ten minutes before it |
| `Otp.ClosedWindowCanHoldMore` | `internal/auth/store.go:88` | the window is open at one end: two codes exactly ten minutes apart pass a limit of one |
| `Otp.AttemptsAreBounded` | `internal/auth/store.go:161-170` | failed attempts never exceed five, or five plus the overlap minus one when verifications overlap |
| `OtpTightness.OverlapExceedsAttempts` | `internal/auth/store.go:161-170` | and so is this one, for every overlap |
| `OtpGuards.AttemptsIff` | `internal/auth/store.go:161-170` | of any single schedule: a code never has more than five failures if and only if each is recorded on fewer than five |
| `Otp.DeadCodeStaysDead` | `internal/auth/store.go:161-163` | after five failures, with no verification under way, nothing changes the row again |
| `Otp.RowsLive` | `internal/auth/store.go:180-182` | a code, its phone and its times never change, attempts never fall, verified is permanent |
| `Otp.VerifiedMeansProven` | `internal/auth/store.go:155-182` | a row is verified only if somebody submitted, before it expired, a code that opens it, the condition written out |
| `Otp.VerifiedByItsOwnCode` | `internal/auth/store.go:122-182` | over every run without master code or test code for the phone: a verified row had the very code sent submitted in time |
| `Registration.EveryRunIsBound` | `internal/auth/handler.go:290-365` | over every run: phones are unique; is_verified equals approved; each write by register spent its own token, issued on a verification that proved the phone of the row, replaced nothing but a rejected applicant, and carried the identity now on the row; an approved driver holds category C |
| `Registration.StepKeepsBound` | `internal/auth/handler.go:184-365` | each step keeps that |
| `Registration.RegisterSparesLiveAccounts` | `internal/auth/store.go:318-352` | no registration that runs alone changes an account that is not rejected |
| `Registration.OneTokenOneWrite` | `internal/auth/store.go:262-281` | two writes never share a token |
| `Registration.EveryPassIsMatched` | `internal/auth/handler.go:184-269` | over every run: each pass has behind it an identity check that MyID answered with a match of that very person under that name, on a verification confirmed by then, ten minutes before its expiry |
| `Registration.IdentityIsBoundToPhone` | `internal/auth/handler.go:304-311` | an account with an identity has behind it a spent token whose verification proved its own phone, issued for a MyID match of that person |
| `RegistrationRaces.EveryScheduleIsBound` | `internal/auth/store.go:318-352` | the statements of any number of registrations interleaved, with everything else: phones unique, is_verified equals approved, a token spent on at most one write, every write to the row of the phone its token proved, every identity from the last token that wrote it |
| `RegistrationRaces.NextKeepsBound` | `internal/auth/store.go:265-352` | each single statement keeps that |
| `RegistrationRaces.HandlerIsItsStatements` | `internal/auth/handler.go:290-365` | a registration nobody interrupts ends where its step ends |
| `RegistrationRaces.SparedIffStillRejected` | `internal/auth/store.go:328-341` | a statement of a registration spares every account that is not rejected if and only if the row its UPDATE overwrites is still rejected then, or already says the same |
| `RegistrationRaces.OnlyRejectedReplacedIff` | `internal/auth/store.go:328-341` | over a whole schedule nobody but rejected applicants is replaced if and only if every such UPDATE finds its row still rejected |
| `RegistrationRaces.SerialPerPhoneSparesLive` | `internal/auth/store.go:318-352` | as it does when no two registrations of one phone overlap and nobody sets the approval of its account meanwhile, those of different phones interleaving at will |
| `RegistrationRaces.ApprovedIsOverwritten` | `internal/auth/store.go:318-341` | a schedule from the empty tables in which two registrations of one rejected phone overlap, and the second puts its identity on the account the first was approved for |
| `Registration.ByPhone` | `internal/auth/store.go:290-293` | finds an account of the phone whenever there is one |
| `Registration.FirstAdmin` | `internal/auth/store.go:421-426` | finds an administrator whenever there is one |
| `AuthService.Service.ConsumeMyIDToken` | `internal/auth/store.go:265-281` | consumes exactly an unconsumed, unexpired token, and never the same one twice |
| `AuthService.Service.CreateUser` | `internal/auth/store.go:318-352` | inserts, or overwrites a rejected applicant; every other row is kept |
| `AuthService.Service.SetApproval` | `internal/auth/store.go:366-375` | status and is_verified move together; an unknown status is refused |
| `AuthService.Service.ResolveAdmin` | `internal/auth/store.go:421-438` | answers with an administrator, making or promoting one only if there was none |
| `AuthService.Service.VerifyIdentity` | `internal/auth/handler.go:184-269` | the handler is the identity step, whose answers are in Onboarding |
| `AuthService.Service.Register` | `internal/auth/handler.go:273-365` | the handler, token spent first, is the register step for every answer of the registry |
| `Onboarding.VerifyIdentityAnswers` | `internal/auth/handler.go:184-269` | a token is issued exactly for a complete form, a confirmed phone and a match; any other answer changes nothing |
| `Onboarding.RegisterAnswers` | `internal/auth/handler.go:273-365` | each answer of register, on the fields and in order; a token that can be spent is spent whatever follows |
| `Onboarding.RegisterEffect` | `internal/auth/handler.go:304-365` | who is put on file: the person of the pass, approved, or rejected for want of category C, in the place of a rejected applicant or at the end; nobody else changes |
| `Onboarding.SetVerificationAnswers` | `internal/auth/store.go:366-375` | status, flag and reason of the one account, and nothing else |
| `Onboarding.AdminAccountIs` | `internal/auth/store.go:421-438` | the first administrator there is; else the holder of the reserved phone promoted, or a new one |
| `Onboarding.ProfileEffect` | `internal/auth/store.go:354-363` | the name of the one account, when one is given, and nothing else |
| `RefreshTokens.TokenStore.SaveRefreshToken` | `internal/auth/store.go:455-461` | inserts the token unless it is known, live or not |
| `RefreshTokens.TokenStore.RotateRefreshToken` | `internal/auth/store.go:465-474` | revokes and answers exactly for a live, unexpired token |
| `RefreshTokens.TokenStore.RevokeRefreshToken` | `internal/auth/store.go:476-481` | revokes a live token, leaves a revoked one |
| `RefreshTokens.TokenStore.MintPair` | `internal/auth/handler.go:633-643` | signs an access token of one day and a refresh token of thirty, each with the user, the role and its own reading of the clock, and saves the refresh token from a third |
| `RefreshTokens.TokenStore.Exchange` | `internal/auth/handler.go:450-490` | the handler alone: the presented token is dead afterwards, and the new one live unless it is the same or known as revoked |
| `RefreshTokens.ExchangeableIs` | `internal/auth/store.go:463-474` | what can be exchanged: a token in time, known, not revoked, its row in time |
| `RefreshTokens.ExchangeIsItsStatements` | `internal/auth/handler.go:450-490` | an exchange nobody interrupts is its statements |
| `RefreshTokens.EveryTokenIsExchangedOnce` | `internal/auth/store.go:463-474` | under every interleaving a token is exchanged at most once, and a row is revoked exactly if its token was exchanged or logged out |
| `RefreshTokens.RevokedStaysRevoked` | `internal/auth/store.go:455-461` | a revoked token never becomes live again, though it be minted and saved again |
| `RefreshTokens.SessionsNeverMultiply` | `internal/auth/handler.go:461-486` | under every interleaving a user's live tokens and those being issued never outnumber the user's sign-ins |
| `RefreshTokens.SavedTokenIsLive` | `pkg/jwtx/jwtx.go:79-82` | the token just saved is live exactly if that very token was never exchanged or logged out, which takes an earlier mint in the same second |
| `RefreshTokens.SameSecondRefreshIsDead` | `pkg/jwtx/jwtx.go:79-82` | signing in and refreshing within one second leaves the user with no live token |
| `Hub.Hub.Subscribe` | `internal/notifications/hub.go:26-30` | appends a fresh, open, empty channel to the list of the user |
| `Hub.Hub.Unsubscribe` | `internal/notifications/hub.go:31-42` | splices the channel out of the list and closes it, once; the close never meets a closed channel |
| `Hub.Hub.Publish` | `internal/notifications/hub.go:47-60` | the nested loops offer the event to every channel of every listed user, in order; no send meets a closed channel |
| `Hub.Hub.Count` | `internal/notifications/hub.go:63-67` | the number of open channels of the user |
| `Hub.Hub.Receive` | `internal/notifications/hub.go:27` | takes the oldest buffered event, from a closed channel too |
| `Hub.UnsubscribedRemovesOne` | `internal/notifications/hub.go:31-42` | the list afterwards is the list before without that channel, in order; other lists are untouched; a second call does nothing |
| `Hub.BroadcastSends` | `internal/notifications/hub.go:50-59` | one publication offers the event to an open channel once per mention of its owner, and to no other |
| `Hub.EveryRunDelivers` | `internal/notifications/hub.go:16-60` | over every run, each publication one step: the registered channels are exactly the open ones, each once, under its owner; a channel was offered precisely what was published to its owner while it was open, in order; nothing kept is lost or reordered |
| `Hub.SubscriberSeesSubsequence` | `internal/notifications/hub.go:45-60` | each publication one step: received plus buffered events are an in-order subsequence of those, and all of them if and only if no send met sixteen buffered events |
| `HubSends.EveryScheduleDelivers` | `internal/notifications/hub.go:47-60` | with publications interleaving their sends under the read lock, and readers in between: no send meets a closed channel, and a channel has been offered each event exactly as often as it was published to its owner while it was open, but for the sends still to come |
| `HubSends.SubscriberSeesOffers` | `internal/notifications/hub.go:45-60` | once no publication is under way, exactly as often; received plus buffered events are an in-order subsequence of the sends, and all of them if and only if no send met sixteen buffered events |
| `HubSends.PublishIsItsSends` | `internal/notifications/hub.go:47-60` | a publication nobody overlaps is the one step of Hub |
| `RouteScheduler.Scheduler.Acquire` | `dashboard/src/api/routing.ts:35-41` | takes a slot while fewer than two are taken, else joins the back of the queue |
| `RouteScheduler.Scheduler.Release` | `dashboard/src/api/routing.ts:43-46` | frees a slot, or hands it to the head of the queue |
| `RouteScheduler.Scheduler.FetchRoute` | `dashboard/src/api/routing.ts:65-114` | same place, cached, in flight or started: the answer and the new state |
| `RouteScheduler.Scheduler.Settle` | `dashboard/src/api/routing.ts:104-107` | the finally block, however the fetch ended |
| `RouteScheduler.Scheduler.CacheResult` | `dashboard/src/api/routing.ts:110-113` | the result of a settled request enters the cache under its key |
| `RouteScheduler.EveryRunIsFair` | `dashboard/src/api/routing.ts:26-46` | over every run: active is the number of slots held and at most two; a waiter means both are held; the queue is the waiting requests in order of arrival; inflight is the unfinished requests, one per key; a cached value is the result of a finished request for its key |
| `RouteScheduler.AdmittedInTurn` | `dashboard/src/api/routing.ts:35-46` | the waiter at position k is admitted by the (k + 1)-th release and not before, over every run |
| `RouteScheduler.WaitersAreWoken` | `dashboard/src/api/routing.ts:43-46` | while anybody waits two slots are held, and whichever holder ends first hands its slot to the head of the queue |
| `RouteScheduler.PromiseIsForKey` | `dashboard/src/api/routing.ts:68-74` | a promise handed out belongs to an unfinished request for the very places asked about |
| `RouteScheduler.FetchAnswers` | `dashboard/src/api/routing.ts:65-114` | every answer and what it changes: nothing between places less than 0.0001 degrees apart, the cached route, the shared request, or a new one |
| `RouteScheduler.CachedAnswersWereFetched` | `dashboard/src/api/routing.ts:65-114` | over every run: a route answered at once between different places is the result of a finished fetch between those very places |
| `Migrations.Database.Migrate` | `pkg/db/db.go:65-100` | the loop, skipping by what it read before it began, is the run the theorems are about |
| `Migrations.Database.AppliedVersions` | `pkg/db/db.go:102-118` | exactly the recorded names |
| `Migrations.Database.ApplyOne` | `pkg/db/db.go:120-135` | body and record together or neither; a second record is refused |
| `Migrations.RunExtends` | `pkg/db/db.go:62-100` | one run over an orderly database: how far it gets, and that it succeeds exactly if no file still to come is broken |
| `Migrations.EveryRunKeepsThePrefix` | `pkg/db/db.go:62-100` | over any runs stopping anywhere, new names sorting last: the applied names are a prefix of the sorted names and the schema the in-order result of exactly those files |
| `Migrations.ResumingEqualsStartingOver` | `pkg/db/db.go:62-64` | however often interrupted, one unbroken run ends where an uninterrupted run on an empty database ends, and the next run changes nothing |
| `Migrations.PrefixIffItWas` | `pkg/db/db.go:83-98` | a run leaves the names in order if and only if they were before |
| `Migrations.InOrderIffNewNamesSortLast` | `migrations/embed.go:1-3` | a release on top of a complete one ends in order if and only if its new names all sort after the old ones |
| `Migrations.LateNameRunsOutOfOrder` | `migrations/embed.go:1-3` | a name sorting in the middle is run out of order |
| `Migrations.SortingLastIsPrefix` | `pkg/db/db.go:81` | new names all sort last if and only if the old sorted list is a prefix of the new one |
| `Migrations.ConcurrentRunsKeepThePrefix` | `pkg/db/db.go:120-135` | migrators interleaved at their transactions still apply every file once and in order |

## Left out

- HTTP, JSON, gateway, CORS, logging, health checks and simulated latencies.
- Backhaul search: floating-point trigonometry.
- The rounding of weight times tariff in `Estimate`: the transport amount is an integer input, and so is, as a yes or no, whether the weight fits its column.
- Tariff rows are read once per request, as a map from key to value; a missing key gets the default of the code.
- Leg names other than the three of the program: they behave as a leg the order does not have.
- The accept-time licence gate is one yes-or-no input of the accept step, because it lets the accept through when auth is unreachable.
- Executor and client names, addresses, cargo details, timestamps and currency: carried along unchanged by the code.
- The emission of events and notifications after a handler has done its writes, and the wording of both.
- Failures of the orders database itself and crashes between two statements: the program does not handle them. A roll-back always runs.
- Conservation.EveryRunBalances: an accept is one step, so an escrow whose answer is lost is opened before the roll-back; one opened later is in `InterleavedMoney.EveryScheduleBalances`.
- Only the orders service is assumed to call the wallet's create and release.
- Review storage, rating averages and their propagation.
- SHA-256, HMAC and base64: a stored code or token hash stands for what was hashed, a signed token for its claims. Tokens from other signers are never in the table.
- Licence numbers, plates and simulated names: inputs.
- Login and the dashboard sign-in issue tokens for an account; their password and phone checks are not part of `RefreshTokens`, where a sign-in is one event.
- Registration.EveryRunIsBound: one step per handler; that it replaces nobody but rejected applicants needs that, the rest holds between statements too (`RegistrationRaces.EveryScheduleIsBound`). The lookup and the write of ResolveAdmin, and the other account handlers, are one step in both.
- Hub.EveryRunDelivers: a publication is one step, as under an exclusive lock; with sends interleaved (`HubSends`) the order of the events is that of the sends, which may differ from channel to channel.
- Hub.Hub.Unsubscribe: lists are values, so the reuse of the backing array by the splice is not modelled; the lock keeps everybody else away from it.
- RouteScheduler.EveryRunIsFair: what a route contains, and why a fetch failed, is not modelled; any failure is the result `None`.
- Migrations.EveryRunKeepsThePrefix: names are numbers with their order, a file body is an abstract value, and a file already applied is assumed not to be edited later.
- Serial.SerialPerOrderIsARun: the run has a step for each statement that takes effect, so a cancellation or confirmation is there as several attempts, the later ones completing the first (`Retry`).
- Races.StaleUpdateMovesBackwards: one schedule; how often such overlaps happen is not modelled.
