# Verification model of the quest platform's backend

A Dafny model of the rules behind the backend: how money, coupons and access
move, how player events are folded, how the events page follows its channel, and
how pictures are moved out of authored documents. The rules are modelled with the
branches, edge cases and constants of the Rust code; the databases, the network,
the gateway and the codecs are arbitrary answers or small stated contracts.

`dafny verify dfyconfig.toml` checks the whole project.

## What is modelled

* **Payments and coupons** (`Payments`, `PaymentSafety`, `PaymentRuns`,
  `PaymentSteps`, `PaymentAnswers`, `OpenPayments`, `HeldCoupons`, `PaymentPaths`,
  `CheckoutReasons`, `PaymentService`, `Coupons`, `CouponFunnel`, `QrSlug`). Any number
  of checkouts and settlements run at once over payment rows, grants, the redemption
  log and the gateway. Every `await` is a step boundary, a process may die between two steps, and
  the gateway, the catalogue and the coupon registry move underneath. `Payments` is
  the protocol as a state machine, `PaymentRuns` the theorems over all runs,
  `CheckoutReasons` why each checkout and settlement ends as it ends,
  `OpenPayments` and `HeldCoupons` the exact conditions under which two of its
  promises hold. `PaymentService` is the code itself: stores updated in place and the
  bodies of checkout and settle with the rest of the server running at every await;
  its class invariant says that the server is always in a state the machine reaches,
  so the theorems hold of it.
* **Calendar** (`Calendar`, `Schedule`, `LocalTime`). The civil calendar, the strict day and
  timestamp formats (section 5.6 of RFC 3339), and the summer-time rule of
  Articles 2 and 3 of Directive 2000/84/EC.
* **Event logs** (`Facts`, `FactStore`, `PlayerStats`, `Feedback`, `Stats`,
  `QuestTable`, `Funnel`). Deduplicated logs, order-free projections, once-ever
  bonuses, the count watermark of the feedback inbox, and conservation of totals.
* **Events page** (`Announcement`, `SharedStore`, `AdminChanges`, `Reader`,
  `ChannelPages`, `ReaderService`, `AnnouncementEffects`, `HtmlText`, `Slug`). The life
  of an announcement, told one action at a time in `Announcement`, and value by value in
  `AnnouncementEffects`; the pass that keeps the store in step
  with the channel; and the text and address scanners. `SharedStore` is the store
  under both writers as a state machine: a pass loads everything once and stores
  announcement by announcement, an admin request reads one and stores it, and every
  load and store is a step of its own. `ReaderService` is the pass as code with
  admin requests running at every await; its class invariant ties it to that
  machine.
* **Pictures** (`Media`, `UploadOrder`, `Uploads`, `Backfill`, `Export`).
  Externalization over a content-addressed store with bounded concurrent uploads,
  the orders in which they can finish, the budgeted migration, and the export archive.
* `Prelude` holds shared vocabulary: decimal text, the order on strings, a stable
  sort, sums.

Contracts taken from the code's surroundings: the payment row's compare-and-set
and the redemption's critical section are atomic; a gateway status is final once
succeeded or canceled; coupon caps do not change; sha256 prints 64 hexadecimal
digits, and where bytes are found again by their digest the statement itself says
that no two byte strings met so far collide; base64 (section 4 of RFC 4648, inside
the data URIs of section 3 of RFC 2397) is some partial decoder; the public media
base is a path without query or fragment and no data URI; lowercasing leaves no
Latin capital and keeps small letters, digits and hyphens.

## Where the code differs from what is said of it

* `OpenPayments.TwoTabsTwoPayments`: the open payment of an order is looked up and
  inserted in separate steps, so two overlapping checkouts open two payments.
  `OpenPayments.OneOpenExactly` gives the exact condition under which the promise
  holds.
* `Coupons.RefusalOrder`: the comment on `check_redeemable` names the pause before
  the date and the cap; the code looks at the date and the cap first.
* `HeldCoupons.WinnerDiesCouponLost`: the settlement that wins the row is the only one
  to redeem the held coupon, so when it dies in between nobody does, and the
  purchase counts toward none of the coupon's caps. `HeldCoupons.MissedExactly` says that this is the only way.
* `QuestTable.TwoOfOneName`: delisted quests come out of a hash map, so two that tie
  stand in either order. `QuestTable.TableExactly` gives the exact condition under
  which the table is determined.
* `ChannelPages.CatchUpMissesExactly`: after a pause of more than five pages newer
  posts stay unread; the lemma says exactly when.
* `Schedule.OffsetIsEuOffset`: a time inside the hour skipped in spring gets an
  offset its instant does not have; every other time is right.
* `Schedule.SignedTimeIsAccepted`: a time such as `+5:30` passes the form, because
  the number parser allows a sign.
* `Stats.PrevLabels`: the first label of the comparison window is clipped to
  1970-01-01 when the window starts before it.
* `Facts.CompletedExactly`: the natural key leaves out the client's verdict, so two
  devices that disagree on one answer make the completed steps depend on who
  delivers first. The lemma gives the exact condition.
* `AdminChanges.HiddenComesBack`: a pass stores whole announcements from copies it
  loaded at its start, and admin requests do not wait for it. A change saved in
  between is overwritten when the pass stores that post: a hidden announcement is
  back on the site, a hand-set value and its mark are gone.
  `AdminChanges.ChangeStaysExactly` gives the exact condition under which a change
  stays.
* `Announcement.RemovalForgetsHiding` and `Announcement.EditRevivesRemoved`: hiding
  is forgotten when a post vanishes and returns, and an edit publishes a removed
  announcement again.
* `Slug.AddressEndsWithId`: the sign of a negative post number is lost.
* `Uploads.CountOfPictures`: the count of moved images is of distinct strings; two
  ways of writing one picture count twice.
* `UploadOrder.TwoTypesOnePicture`: when two strings write one new picture under
  different media types, the type kept, and with it the extension in an export,
  depends on which upload finishes first. `UploadOrder.OneResultExactly` gives the
  exact condition under which the store does not depend on it; the tree and its
  references never do.
* `HtmlText.RenderedTextReadsBack`: a no-break space comes back as a plain one.

## Model

| member | source | states |
|---|---|---|
| `PaymentRuns.EveryRunKeeps` | platform/backend/src/payments.rs:124-439 | the whole invariant of rows, charges, grants, coupons and processes holds after every interleaving of checkouts, settlements, crashes and outside events |
| `PaymentRuns.NothingIsTakenBack` | platform/backend/src/payments.rs:25-34 | whatever follows, grants and redemptions stay, rows go one way from pending, terminal gateway states stay |
| `PaymentRuns.RowsFollowTheGateway` | platform/backend/src/payments.rs:389-428 | a row is succeeded only if the gateway holds the money, canceled only if the gateway voided it |
| `PaymentRuns.HeldCouponOnlyOnceAndOnlyPaid` | platform/backend/src/payments.rs:397-416 | a held coupon is redeemed at most once per payment and never for a canceled or abandoned one |
| `HeldCoupons.MissedExactly` | platform/backend/src/payments.rs:397-416 | over every run, a paid row's held coupon is left untried with nobody about to try it if and only if the process that won the row died in between |
| `HeldCoupons.OneMiss` | platform/backend/src/payments.rs:397-416 | in every reachable state an action leaves a coupon behind exactly when it kills the winner before it redeems |
| `HeldCoupons.PaidCouponFate` | platform/backend/src/payments.rs:25-27 | a paid row with a coupon is in exactly one of three ways: a settlement tried the coupon, the winner is about to, or the winner died |
| `HeldCoupons.WinnerDiesCouponLost` | platform/backend/src/payments.rs:395-416 | a concrete run: half the price is taken, the winner dies, and nobody redeems the coupon |
| `PaymentAnswers.CompletedSettlementGrants` | platform/backend/src/payments.rs:385-439 | a completed settlement answers exactly what the gateway said at the moment it was asked, however stale its row: succeeded if the money was taken by then, and then with the stored grant |
| `PaymentRuns.GrantsNeverChange` | platform/backend/src/grants.rs:71-95 | a grant once created is the same grant after any further run |
| `PaymentRuns.EveryGrantIsBacked` | platform/backend/src/payments.rs:1-8 | every coupon or payment grant ever made stands on a recorded redemption, the mock reference, or a charge the gateway holds |
| `CheckoutReasons.EveryGrantHasItsReason` | platform/backend/src/payments.rs:124-439 | over every run each grant was made in one step: by a settlement, as a payment that names its row's charge; or by a checkout, as free if it read the quest as published at no price, and otherwise by a redemption that covers the price or under the mock reference, past the switch or with a coupon seen to cover |
| `CheckoutReasons.FreeGrantsWereFree` | platform/backend/src/payments.rs:150-166 | a free grant goes back to a step of the run in which the catalogue listed the quest with no price or none above zero |
| `CheckoutReasons.SinceReading` | platform/backend/src/payments.rs:124-377 | over every run, each stop of a checkout after its reading of the catalogue is explained by what the catalogue showed at that step and by the switch, coupon, redemption and open payment seen since: prices, discounts, references and rows |
| `CheckoutReasons.UnlistedIsRefusedOrReplayed` | platform/backend/src/payments.rs:164-184 | an order for a quest not listed when read: a redirect order is refused or sent back to an open payment, any other is refused or granted under the mock reference |
| `CheckoutReasons.FreeIsGranted` | platform/backend/src/payments.rs:150-166 | a quest read as free is granted as free, unless the checkout dies |
| `CheckoutReasons.FailsExactly` | platform/backend/src/payments.rs:139-377 | a process fails in an action exactly if it is killed or finds one of the listed reasons: unknown provider, switch off, no credentials, no listing, blank or refused code, a charge that cannot be opened |
| `CheckoutReasons.FailedForAReason` | platform/backend/src/payments.rs:124-439 | over every run, who ends refused was refused for one of these at a step of the run |
| `CheckoutReasons.GrantedInAStep` | platform/backend/src/payments.rs:426-438 | over every run, a settlement's answered grant is the one stored at its granting step, or a new payment grant with the row's charge as its reference |
| `PaymentRuns.CapsAlwaysHold` | platform/backend/src/store.rs:3155-3195 | no coupon passes its total or per-player cap and no coupon, player and quest is redeemed twice, over every run with fixed caps |
| `PaymentRuns.OwnersRedeemNothing` | platform/backend/src/payments.rs:129-137 | a checkout that arrives for an owned quest records no redemption and returns the stored grant |
| `PaymentRuns.ChargesAlwaysSound` | platform/backend/src/payments.rs:314-368 | every amount sent to the gateway is the price less the quoted discount, above zero and at most the price; the row carries the same amounts |
| `PaymentSafety.ApplyKeeps` | platform/backend/src/payments.rs:124-439 | each single step, by any process or the outside, keeps the invariant and takes nothing back |
| `PaymentSafety.FlipKeeps` | platform/backend/src/store.rs:3360-3370 | winning the compare-and-set leaves one holder of the row, with its coupon still to redeem |
| `PaymentSafety.RedeemHeldKeeps` | platform/backend/src/payments.rs:398-413 | the winner's redemption is signed by its row and cannot repeat |
| `PaymentSafety.MintKeeps` | platform/backend/src/payments.rs:331-350 | opening a charge under a new token disturbs no other process |
| `OpenPayments.OneOpenExactly` | platform/backend/src/payments.rs:301-371 | over every run, no order ever has two open payments if and only if no checkout inserts while a payment of its order is open |
| `OpenPayments.OneOpenKept` | platform/backend/src/payments.rs:301-371 | in every reachable state with one open payment per order, an action opens a second one exactly when it is such an insert |
| `OpenPayments.InsertedSinceTheCheck` | platform/backend/src/payments.rs:301-315 | a payment open at a checkout's insert was inserted by another checkout of the order after this one had found none open: the two overlapped |
| `OpenPayments.OneOpenPayment` | platform/backend/src/payments.rs:301-315 | so checkouts of one order that never overlap keep the promise of one open payment |
| `OpenPayments.OverlapDoubles` | platform/backend/src/payments.rs:301-371 | two checkouts of one order that both stand before their insert always leave two open payments |
| `OpenPayments.TwoTabsTwoPayments` | platform/backend/src/payments.rs:301-371 | a concrete run of two tabs that ends with two open payments |
| `PaymentPaths.FreeQuestNeedsNoProvider` | platform/backend/src/payments.rs:150-166 | a published free quest is granted with every provider off, nothing else changed |
| `PaymentPaths.GiftNeedsNoProvider` | platform/backend/src/payments.rs:168-180 | a coupon that covers the price settles with every provider off: one redemption, a coupon grant, no charge |
| `PaymentPaths.QuoteIsRedeemed` | platform/backend/src/payments.rs:255-277 | what is quoted is what a redemption on the same log records: coupon, player, quest, amount and moment |
| `PaymentService.PaymentStore.FindPendingFor` | platform/backend/src/store.rs:3352-3358 | finds an open row of the order, or reports that none is open |
| `PaymentService.PaymentStore.SettleSucceeded` | platform/backend/src/store.rs:3360-3370 | the compare-and-set from pending, and whether this call won |
| `PaymentService.PaymentStore.MarkCanceled` | platform/backend/src/store.rs:3372-3380 | leaves pending only |
| `PaymentService.GrantStore.CreateGrantIdemp` | platform/backend/src/store.rs:640-661 | first source and reference win |
| `PaymentService.CouponStore.Usage` | platform/backend/src/store.rs:2995-3012 | the two loops count the log's total and per-player redemptions |
| `PaymentService.CouponStore.QuoteCoupon` | platform/backend/src/payments.rs:255-277 | the quote, nothing consumed |
| `PaymentService.CouponStore.Redeem` | platform/backend/src/store.rs:3155-3195 | the critical section: look up, return a repeat, re-check, record |
| `PaymentService.Server.Checkout` | platform/backend/src/payments.rs:124-184 | with any other work running at every await: a granted order holds the stored grant, a redirected one a row of its own, an owner gets the grant he had and redeems nothing; a new grant, a redirection and a refusal each have their reason in what was seen between arrival and answer, and an unlisted or free quest is answered as such |
| `PaymentService.Server.MockCheckout` | platform/backend/src/payments.rs:205-238 | redeem at once, then grant; ends where the protocol machine ends |
| `PaymentService.Server.YookassaCheckout` | platform/backend/src/payments.rs:292-377 | replay an open payment, or price, open and keep a charge; ends where the protocol machine ends |
| `PaymentService.Server.Dispatch` | platform/backend/src/payments.rs:168-184 | a covering coupon first, then the switch, then the provider |
| `PaymentService.Server.RedeemAtCheckout` | platform/backend/src/payments.rs:212-229 | one redemption, and what the grant is made of |
| `PaymentService.Server.OpenCharge` | platform/backend/src/payments.rs:331-350 | one charge under a token never used before |
| `PaymentService.Server.KeepRow` | platform/backend/src/payments.rs:351-376 | the row is kept and the payer redirected |
| `PaymentService.Server.Ask` | platform/backend/src/payments.rs:389-396 | one step of the history: the settlement goes where the gateway's answer, or the copy of the row, sends it; what it is then heading for is the gateway's status at this step |
| `PaymentService.Server.Win` | platform/backend/src/payments.rs:395-398 | one step of the history: the row's compare-and-set with its answer, and only a winner with a held coupon goes on to redeem |
| `PaymentService.Server.RedeemHeldCoupon` | platform/backend/src/payments.rs:398-413 | one step of the history: exactly the machine's held redemption, recorded or refused, and the grant comes next either way |
| `PaymentService.Server.Withdraw` | platform/backend/src/payments.rs:416-419 | one step of the history: the row canceled unless it was settled, and the answer is canceled |
| `PaymentService.Server.GrantPaidQuest` | platform/backend/src/payments.rs:426-438 | one step of the history: the machine's granting step and its answer |
| `PaymentService.Server.Settle` | platform/backend/src/payments.rs:385-439 | with any other work running at every await: an answer is what the gateway said at a question put after the call began; if the gateway held the money when the call began, the answer is succeeded; on succeeded the player holds the grant returned, which was stored at the granting step or is a new payment grant that names the row's charge; no answer has its reason |
| `Coupons.DiscountBounds` | platform/backend/src/coupons.rs:242-254 | a discount is between nothing and the price, leaves the nearest whole ruble (half up) of a percentage, is a fixed amount as it stands up to the price, and covers the price exactly when stated |
| `Coupons.ExpiredExactly` | platform/backend/src/coupons.rs:183-185 | expired exactly when the last valid day is strictly earlier than today |
| `Coupons.RedeemableExactly` | platform/backend/src/coupons.rs:208-235 | redeemable exactly when active, applicable and within the player's cap: the badge and the purchase answer agree |
| `Coupons.RefusalOrder` | platform/backend/src/coupons.rs:204-235 | which ground a coupon failing on several is refused for: the date and the total cap before the pause |
| `Coupons.RefusedExactly` | platform/backend/src/coupons.rs:208-235 | for each ground exactly the coupons refused for it |
| `Coupons.StatusExactly` | platform/backend/src/coupons.rs:193-203 | the badge: spent whatever else, then past its date, then paused |
| `Coupons.RedeemKeeps` | platform/backend/src/store.rs:3155-3195 | a redemption adds at most one entry and keeps caps and uniqueness |
| `Coupons.RedeemAgain` | platform/backend/src/store.rs:3155-3177 | redeeming again, on any day and at any price, returns the recorded entry |
| `Coupons.FindCoupon` | platform/backend/src/store.rs:3160-3172 | a coupon with the code, or none has it |
| `Coupons.FindRedemption` | platform/backend/src/store.rs:3173-3177 | a redemption of the triple, or there is none |
| `CouponFunnel.Fold` | platform/backend/src/coupons.rs:363-396 | each step counts the redemptions whose player took it; later steps never exceed earlier ones |
| `CouponFunnel.StepsTaken` | platform/backend/src/coupons.rs:363-396 | what each step asks: a row of progress, the last one completed, the last one rated, a payment for another quest in the window |
| `CouponFunnel.ByPair` | platform/backend/src/coupons.rs:369-372 | the table of progress, the last row of a pair counting |
| `CouponFunnel.PaidBy` | platform/backend/src/coupons.rs:373-376 | each player's payments |
| `CouponFunnel.WindowOfStamps` | platform/backend/src/coupons.rs:400-406 | on stored stamps the purchase window is thirty days of instants, both ends included |
| `QrSlug.SlugExists` | platform/backend/src/coupons.rs:291-301 | a slug exists exactly when six bytes are accepted, and is spelled in the alphabet |
| `QrSlug.SlugSpells` | platform/backend/src/coupons.rs:279-301 | a slug is the first six bytes below 248, each as the alphabet's character at its remainder by 31 |
| `QrSlug.EquallyLikely` | platform/backend/src/coupons.rs:282-292 | every character is spelled by exactly eight accepted bytes |
| `Calendar.CivilRoundTrip` | platform/backend/src/admin_stats.rs:22-32 | the day number of a real date gives the date back |
| `Calendar.DaysRoundTrip` | platform/backend/src/store.rs:55-81 | every day number is the number of the real date the era arithmetic gives |
| `Calendar.NextDayIsOneMore` | platform/backend/src/admin_stats.rs:24-32 | the next day of the calendar has the next number |
| `Calendar.DaysMonotone` | platform/backend/src/admin_stats.rs:24-32 | day numbers are ordered exactly as dates |
| `Calendar.ParseDayExact` | platform/backend/src/admin_stats.rs:42-53 | accepts exactly the texts of the real days from 1970-01-01 to 9999-12-31 and gives their midnight |
| `Calendar.ParseDayInvertsDayFromUnix` | platform/backend/src/admin_stats.rs:45-58 | parsing undoes formatting, down to the day, for exactly the instants of that span |
| `Calendar.TimestampRoundTrip` | platform/backend/src/admin_stats.rs:60-73 | a written timestamp reads back to its second |
| `Calendar.TimestampExact` | platform/backend/src/admin_stats.rs:60-73 | a text reads as a timestamp exactly if it is the one written for some second of the span, and then as that second |
| `Calendar.DateTextOrder` | platform/backend/src/coupons.rs:180-185 | day texts compare as strings exactly as the days they name |
| `Schedule.LastSundayExact` | platform/backend/src/afisha.rs:1031-1038 | the result is a Sunday among the last seven days of the month |
| `Schedule.SundaysKnown` | platform/backend/src/afisha.rs:1034-1039 | Sundays are seven days apart, and 29 March 2026 is one |
| `Schedule.OffsetIsEuOffset` | platform/backend/src/afisha.rs:1013-1029 | the offset used is the one the EU rule gives the resulting instant, exactly for wall-clock times outside the hour skipped in spring |
| `LocalTime.ScheduleOffsetExact` | platform/backend/src/afisha.rs:963-987 | the same of the whole schedule computed from the stored fields |
| `Schedule.MinuteText` | platform/backend/src/afisha.rs:796-807 | a parsed time prints back as given exactly when it is written in digits |
| `Schedule.DigitTimeExact` | platform/backend/src/afisha.rs:796-807 | a time in two digits each is a time of day exactly below 24 and 60 |
| `LocalTime.StartLocalShowsTheGiven` | platform/backend/src/afisha.rs:950-969 | the local start prints back the given date and two-digit time |
| `LocalTime.ScheduleExactly` | platform/backend/src/afisha.rs:963-987 | a schedule exists exactly for a real day and a time of day; it starts when the city's clock shows them and ends after the named length, or three hours |
| `Schedule.SignedTimeIsAccepted` | platform/backend/src/afisha.rs:798-807 | a signed hour or minute is accepted as a time |
| `Facts.ProjectState` | platform/backend/src/facts.rs:170-194 | the loop computes the projected state |
| `Facts.StateSets` | platform/backend/src/facts.rs:163-194 | both sets are strictly increasing and hold exactly the completed and the revealed steps |
| `Facts.CompletedByKinds` | platform/backend/src/facts.rs:163-194 | the kinds written out: a step is completed by presence, completion, a skip or a right answer, and revealed by a bought hint |
| `Facts.BalanceMoves` | platform/backend/src/facts.rs:148-153 | every event moves the balance by its coins, up or down |
| `Facts.StateOrderFree` | platform/backend/src/facts.rs:163-194 | the projection does not depend on the order of the log |
| `Facts.DeliverBatches` | platform/backend/src/store.rs:160-204 | how a delivery is cut into batches makes no difference |
| `Facts.DeliverKeys` | platform/backend/src/store.rs:160-204 | a log ends up with every key once and exactly the keys it had or received |
| `Facts.BalanceConfluence` | platform/backend/src/facts.rs:121-153 | any order, batching and repetition of a delivery gives the same balance and hints |
| `Facts.AgreeIsUndisputed` | platform/backend/src/facts.rs:121-153 | reports that agree on the verdict dispute no completed step, whatever the log holds |
| `Facts.CompletedExactly` | platform/backend/src/facts.rs:121-194 | whatever the log holds already, the completed steps are independent of delivery exactly when every step some new report completes is completed already or by an undisputed event |
| `Facts.DeliverNews` | platform/backend/src/facts.rs:121-153 | a delivery adds exactly what the events with unknown keys alone would leave in an empty log |
| `FactStore.AwardedExactly` | platform/backend/src/facts.rs:241-253 | the answer lists exactly the paid once-ever bonuses, each once, by wire tag |
| `FactStore.AnswerSpelled` | platform/backend/src/facts.rs:241-253 | the answer spelled out: the comment bonus, the completion bonus, the rating bonus, in this order, as far as paid |
| `FactStore.AwardedOrderFree` | platform/backend/src/facts.rs:241-253 | the answer depends only on which bonuses were paid |
| `FactStore.FactLogs.CreateAttempt` | platform/backend/src/store.rs:124-144 | a new empty log under a numbered name not in use |
| `FactStore.FactLogs.Awarded` | platform/backend/src/store.rs:146-158 | the bonuses on any attempt of the pair, whatever order attempts are visited in |
| `FactStore.FactLogs.AppendIdempotent` | platform/backend/src/store.rs:160-204 | the loop is the specified pass; on a store of the runs it keeps the invariant and accepts exactly the news, in order |
| `FactStore.BonusesOnceEver` | platform/backend/src/facts.rs:92-101 | over every run each once-ever bonus is accepted at most once per player and quest, across attempts |
| `FactStore.EachBonusOnce` | platform/backend/src/facts.rs:92-101 | the kinds written out: over every run the logs of a player at a quest hold one completion bonus at most, one rating bonus and one comment bonus |
| `FactStore.AcceptsExactlyTheNews` | platform/backend/src/store.rs:160-204 | over every run an append accepts exactly, in order and each the first time it comes, the three bonuses no attempt of the player at the quest holds and the other events whose kind, step, answer, coins and note the log does not hold |
| `FactStore.GateIsTheAnswer` | platform/backend/src/store.rs:172-188 | a bonus is refused exactly when the player is told he holds it |
| `FactStore.AppendIsDelivery` | platform/backend/src/store.rs:160-204 | outside the once-ever kinds the gate is plain deduplication by key |
| `PlayerStats.ProjectPlayerStats` | platform/backend/src/facts.rs:259-280 | the fold over the attempts computes the statistics |
| `PlayerStats.StatsExactly` | platform/backend/src/facts.rs:255-280 | the coins of every event together, the quests with a completed attempt, sorted and each once, and the numbers of these, of the attempts and of the grants |
| `PlayerStats.HasCompletion` | platform/backend/src/facts.rs:265-270 | whether an attempt was completed |
| `PlayerStats.StatsOrderFree` | platform/backend/src/facts.rs:255-280 | independent of the order of attempts and of events within them |
| `PlayerStats.BonusPaidOnce` | platform/backend/src/facts.rs:92-101 | over every run the attempts of a player at a quest hold each once-ever bonus at most once, so it is paid once |
| `PlayerStats.BonusAddsOnce` | platform/backend/src/facts.rs:255-280 | after every run the statistics' balance holds of each once-ever bonus either nothing or the coins of the one event that paid it |
| `Feedback.GroupFeedback` | platform/backend/src/facts.rs:530-577 | collecting, visiting the table in any order and sorting gives the specified inbox |
| `Feedback.Collect` | platform/backend/src/facts.rs:534-542 | every key with the reports of its group, in the order they came |
| `Feedback.Partition` | platform/backend/src/facts.rs:520-545 | the groups partition the reports: none lost, duplicated or misfiled |
| `Feedback.GroupContents` | platform/backend/src/facts.rs:546-564 | resolved exactly while the reports are no more than acknowledged; reports newest first |
| `Feedback.InboxOrder` | platform/backend/src/facts.rs:546-577 | open groups before resolved ones, of those the most reported first, and in a group the newest report first |
| `Feedback.GroupingOrderFree` | platform/backend/src/facts.rs:530-577 | the inbox depends only on the bag of reports |
| `Feedback.OneMoreReopens` | platform/backend/src/facts.rs:520-529 | one more report on a group acknowledged at its count reopens that group and leaves the others as they were |
| `Stats.RangeExact` | platform/backend/src/admin_stats.rs:104-116 | a range is accepted exactly for two real days in order |
| `Stats.RangeHolds` | platform/backend/src/admin_stats.rs:107-124 | it holds exactly the instants of its days and counts them |
| `Stats.PrevWindow` | platform/backend/src/admin_stats.rs:126-136 | the previous window is adjacent, disjoint and of equal length |
| `Stats.PrevLabels` | platform/backend/src/admin_stats.rs:126-136 | its labels read back as the window exactly when it does not reach before 1970 |
| `Stats.DailySeries` | platform/backend/src/admin_stats.rs:278-304 | one point per day in order with that day's counts; the columns add up to the counters |
| `Stats.DaysAddUp` | platform/backend/src/admin_stats.rs:262-304 | every event of the range falls on exactly one of its days |
| `Stats.CountByDay` | platform/backend/src/admin_stats.rs:281-287 | the events of the range tallied by day |
| `QuestTable.Tally` | platform/backend/src/admin_stats.rs:318-329 | the three passes tally each quest's counters |
| `QuestTable.TakeListed` | platform/backend/src/admin_stats.rs:330-349 | each listing takes its quest's counts once; what is left is active and unlisted |
| `QuestTable.TakeLeft` | platform/backend/src/admin_stats.rs:350-365 | one delisted row for each quest left over |
| `QuestTable.QuestRows` | platform/backend/src/admin_stats.rs:306-371 | listed rows and leftovers, sorted, for some order of the leftovers; every column adds up to the counter, for unlisted and repeated quests too |
| `QuestTable.BusiestFirst` | platform/backend/src/admin_stats.rs:364-371 | a row further up has more starts, or as many and more purchases, or as many of both and a name not later |
| `QuestTable.ListingShown` | platform/backend/src/admin_stats.rs:330-349 | each listing's row shows the quest under its label, with summary and pages, published, and its counts if it was not listed before |
| `QuestTable.LeftoverShown` | platform/backend/src/admin_stats.rs:350-363 | a quest listed no more is shown under its label, unpublished, with all its counts |
| `QuestTable.TableExactly` | platform/backend/src/admin_stats.rs:349-371 | the listings and the events determine the whole table if and only if no two of the quests listed no more tie in starts, purchases and name |
| `QuestTable.SortStable` | platform/backend/src/admin_stats.rs:364-371 | the sort leaves rows that tie in the order they came in |
| `QuestTable.TwoOfOneName` | platform/backend/src/admin_stats.rs:349-371 | a concrete input: two delisted quests of one name with one start each stand in either order |
| `QuestTable.QuestsAddUp` | platform/backend/src/admin_stats.rs:306-371 | distinct quests that cover the events count each event once |
| `Funnel.FunnelCounts` | platform/backend/src/admin_stats.rs:419-440 | position i counts the logs that completed some step at or beyond i-1, without overrun for odd steps |
| `Funnel.ReachedByEvent` | platform/backend/src/admin_stats.rs:419-440 | a position after the start is reached by an event that completes the step before it or a later one, the kinds written out |
| `Funnel.FunnelShape` | platform/backend/src/admin_stats.rs:419-440 | starts at the number of logs and never widens |
| `Funnel.FunnelOrderFree` | platform/backend/src/admin_stats.rs:419-440 | independent of the order of logs and of facts |
| `Announcement.Event.Settle` | platform/backend/src/afisha.rs:280-292 | status and problem recomputed; a hidden one stays hidden |
| `Announcement.Event.Edit` | platform/backend/src/afisha.rs:294-312 | an invalid form changes nothing; a valid one is taken and its changes marked |
| `Announcement.KeepEdited` | platform/backend/src/afisha.rs:128-141 | every value as read except those set by hand |
| `Announcement.ChangedNames` | platform/backend/src/afisha.rs:143-158 | exactly the names whose value differs |
| `Announcement.NormalizedExactly` | platform/backend/src/afisha.rs:160-222 | a form is accepted exactly when it is proper once trimmed, and stored as trimmed |
| `Announcement.RefusedFormExactly` | platform/backend/src/afisha.rs:160-222 | for each ground exactly the forms refused for it |
| `Announcement.TrimmedByName` | platform/backend/src/afisha.rs:160-222 | what is stored of a form, value by value: trimmed, a blank one left out |
| `Announcement.AcceptedAgain` | platform/backend/src/afisha.rs:160-222 | an accepted form is accepted again as it is |
| `Announcement.Event.HideIt` | platform/backend/src/afisha.rs:314-317 | off the site |
| `Announcement.Event.ShowIt` | platform/backend/src/afisha.rs:319-324 | the status that the kind and the fields call for, and nothing else changed |
| `Announcement.Event.RemoveIt` | platform/backend/src/afisha.rs:326-329 | marked as gone |
| `Announcement.Event.Take` | platform/backend/src/afisha.rs:1121-1155 | post values applied wherever nothing is set by hand; the picture is the one copied, none without a photo, and else stays |
| `Announcement.Event.FileAsImported` | platform/backend/src/afisha.rs:1157-1166 | a kind by hand for a post without one |
| `Announcement.Event.FileAsArchived` | platform/backend/src/afisha.rs:1168-1175 | no drafts from the archive |
| `Announcement.ReadPost` | platform/backend/src/afisha.rs:1107-1155 | applies a read post to its announcement or to a new one |
| `Announcement.EditMarks` | platform/backend/src/afisha.rs:301-312 | an edit marks exactly what it changes and loses no mark |
| `Announcement.ReadingTwiceIsOnce` | platform/backend/src/afisha.rs:1121-1155 | reading a post again changes nothing, its picture copied again or not |
| `Announcement.EveryStory` | platform/backend/src/afisha.rs:129-158 | in every sequence of reads, edits, hiding, showing, removal and imports told one action at a time: unedited values are the last post's, edited ones the admin's, published ones complete |
| `AnnouncementEffects.ReadShowsThePost` | platform/backend/src/afisha.rs:1108-1155 | value by value what a read leaves: text, date, link and unedited values of the post, the kind it gives, and where the announcement then stands |
| `AnnouncementEffects.ReadShowsThePicture` | platform/backend/src/afisha.rs:1139-1148 | after a read the picture and its print are those copied, none for a post without a photo, and as before when the copy failed |
| `AnnouncementEffects.NewShowsThePost` | platform/backend/src/afisha.rs:1108-1166 | the same of a new announcement, which has nothing of its own |
| `AnnouncementEffects.EditTakesTheForm` | platform/backend/src/afisha.rs:284-317 | a saved form is what the announcement says, and it stands where that puts it |
| `AnnouncementEffects.ShownHiddenRemoved` | platform/backend/src/afisha.rs:305-330 | showing puts a complete announcement on the site, one without a kind among the untagged, any other among the drafts; hiding and removing touch the status alone |
| `AnnouncementEffects.HideAndShow` | platform/backend/src/afisha.rs:312-324 | hiding and then showing is as if nothing had happened |
| `AnnouncementEffects.FiledExactly` | platform/backend/src/afisha_reader.rs:441-470 | an import without a kind gets the one its text speaks of by hand; a draft of the archive waits untagged |
| `AnnouncementEffects.EveryStoryShowsItsPost` | platform/backend/src/afisha.rs:1108-1166 | over every story the announcement shows the text, date and link of the last post read and the last picture a read decided on |
| `Announcement.HiddenUntilShown` | platform/backend/src/afisha.rs:280-325 | an action leaves an announcement hidden exactly when it hides it, or finds it hidden and neither shows nor removes it |
| `Announcement.HiddenExactly` | platform/backend/src/afisha.rs:280-325 | a story ends hidden exactly when the announcement was hidden and since then neither shown nor removed |
| `Announcement.HandSetScheduleIsReal` | platform/backend/src/afisha.rs:191-206 | in every story a date and a time set by hand are a real day and a time of day |
| `Announcement.RemovalForgetsHiding` | platform/backend/src/afisha.rs:1149-1153 | a hidden announcement whose post vanished and came back is no longer hidden |
| `Announcement.EditRevivesRemoved` | platform/backend/src/afisha.rs:301-312 | editing a removed announcement brings it back |
| `SharedStore.EveryStoredIsAStory` | platform/backend/src/handlers/afisha.rs:319-399 | however the loads and stores of passes and admin requests interleave, each stored announcement is the end of a story told one action at a time, with all that such stories keep |
| `SharedStore.ApplyKeeps` | platform/backend/src/afisha_reader.rs:441-487 | each single load or store keeps every stored and every copied announcement a story, and store and copies equal wherever no admin is ahead |
| `SharedStore.AheadExactly` | platform/backend/src/afisha_reader.rs:351-476 | an admin is ahead after a step exactly if he saved with it, or was ahead and the pass did not catch up |
| `SharedStore.StartsAndEnds` | platform/backend/src/afisha_reader.rs:351-396 | a pass starts with copies of everything stored; a dropped request is over |
| `AdminChanges.ChangeStaysExactly` | platform/backend/src/handlers/afisha.rs:330-399 | an admin's change stays part of the stored announcement through any further steps exactly when nobody stores that announcement from a copy loaded before the change was there |
| `AdminChanges.ChangeStands` | platform/backend/src/afisha.rs:69-70 | as long as that does not happen and nothing takes it back, a hidden announcement stays hidden and hand-set values stay as set, whatever passes and requests do |
| `AdminChanges.PassOverwrites` | platform/backend/src/afisha_reader.rs:441-476 | from every reachable state: a change saved between a pass's load and its store of the edited post is overwritten, as if nothing had been changed, and does not influence whether the pass reads the post |
| `AdminChanges.HiddenComesBack` | platform/backend/src/afisha_reader.rs:355-476 | a concrete run: published, hidden while a pass runs that wants the edited post, published again without being shown |
| `ReaderService.ReaderPass.constructor` | platform/backend/src/afisha_reader.rs:351-396 | load under admin requests: announcements with prints filled in; the pictures at hand are exactly those of announcements with a print, each once |
| `ReaderService.ReaderPass.LoadPictures` | platform/backend/src/afisha_reader.rs:362-382 | the loop over the loaded announcements: every print filled in, every printed picture at hand, none twice |
| `ReaderService.ReaderPass.CopyPicture` | platform/backend/src/afisha_reader.rs:489-530 | reuse a held picture, else store the copy |
| `ReaderService.ReaderPass.Read` | platform/backend/src/afisha_reader.rs:441-470 | apply one wanted post, count it, note the page and a new draft, store it |
| `ReaderService.ReaderPass.Upsert` | platform/backend/src/afisha_reader.rs:472-476 | the whole announcement written over what is stored and remembered |
| `ReaderService.ReaderPass.RemoveEvent` | platform/backend/src/afisha_reader.rs:478-487 | take one announcement down and report it if it was published |
| `ReaderService.ReaderPass.Agrees` | platform/backend/src/afisha_reader.rs:355-476 | where no admin saved since, the store holds what the pass holds |
| `ChannelPages.CatchUp` | platform/backend/src/afisha_reader.rs:699-713 | the feed and then, up to five times, the page before the oldest post, until the oldest reaches the newest known number plus one or a page is empty |
| `ChannelPages.CatchUpMissesNothing` | platform/backend/src/afisha_reader.rs:682-713 | on a still channel the posts read have no gap, and after a pause of fewer than five pages every newer post is among them |
| `ChannelPages.CatchUpMissesExactly` | platform/backend/src/afisha_reader.rs:682-713 | a newer post is missed exactly when one lies below all that was read, which is when the next page back still shows one; then all five pages were read |
| `ChannelPages.PagesUntilMet` | platform/backend/src/afisha_reader.rs:682-713 | paging goes on while pages are left, until the known posts are met or the channel ends |
| `ChannelPages.GoesOnExactly` | platform/backend/src/afisha_reader.rs:806-840 | the import goes on before the oldest post of a page unless it is empty or shows a post from before the year |
| `ChannelPages.SyncFollowsTheChannel` | platform/backend/src/afisha_reader.rs:682-737 | with no gap, an announcement in the covered part is removed exactly when the channel no longer has its post, and every own event there is stored as the channel has it |
| `ReaderService.ReaderPass.Sync` | platform/backend/src/afisha_reader.rs:714-737 | the announcements after the pass, and a report that counts exactly what changed; the store follows wherever no admin got ahead |
| `ReaderService.ReaderPass.SyncFeed` | platform/backend/src/afisha_reader.rs:692-737 | an empty page is an error that changes nothing; otherwise a sync over exactly the pages read |
| `Reader.ReadAllFeed` | platform/backend/src/afisha_reader.rs:441-470 | posts with distinct numbers each leave what they would alone |
| `Reader.RemovedExactlyUnlisted` | platform/backend/src/afisha_reader.rs:686-737 | within the covered part an announcement is removed exactly when the pages do not list it; outside nothing changed |
| `Reader.SyncShowsThePosts` | platform/backend/src/afisha_reader.rs:441-530 | after a sync every wanted post shows in its announcement, with its picture whenever download and store succeeded |
| `Reader.SyncCopiesThePictures` | platform/backend/src/afisha_reader.rs:489-530 | if every photo can be had, a sync leaves every listed announcement with its picture |
| `Reader.CopiedExactly` | platform/backend/src/afisha_reader.rs:489-530 | a photo is the first picture at hand with its print, or else what the store makes of it, and the pass counts and remembers it |
| `Reader.WantsExactly` | platform/backend/src/afisha_reader.rs:400-416 | which posts a pass reads: unknown own events, changed texts, missing pictures, removed and newly own ones; in the archive, own events not filed |
| `Reader.PrintFilled` | platform/backend/src/afisha_reader.rs:362-382 | loading fills in a missing print of a picture and nothing else |
| `Reader.NotesExactly` | platform/backend/src/afisha_reader.rs:441-476 | reading a post notes its page if it was or is on the site, and the announcement if it has become a draft |
| `Reader.SecondSyncIsIdle` | platform/backend/src/afisha_reader.rs:400-417 | a second sync over the same posts, pictures copied, creates, updates and removes nothing |
| `Reader.ArchiveLeavesTheSiteAlone` | platform/backend/src/afisha_reader.rs:806-828 | the archive import touches only what is stored unfiled and makes no drafts |
| `Reader.ArchiveStores` | platform/backend/src/afisha_reader.rs:806-828 | an own event read from the archive is stored |
| `ReaderService.ReaderPass.ImportArchivePage` | platform/backend/src/afisha_reader.rs:811-833 | the page's posts from the year on applied in archive mode; the next page named unless the year's start is reached or the page is empty |
| `ChannelPages.ArchiveReadsTheYear` | platform/backend/src/afisha_reader.rs:800-833 | called again with the page it names, the import ends and reads exactly the posts of the year and after, each once, on a still channel whose dates run with its numbers |
| `Reader.ImportFiles` | platform/backend/src/afisha_reader.rs:772-798 | an imported post gets a kind, and the feed then leaves it alone |
| `ReaderService.Memory.Record` | platform/backend/src/afisha_reader.rs:836-858 | failures counted, reset by a success; mail at the second |
| `ReaderService.Memory.CheckDue` | platform/backend/src/afisha_reader.rs:304-313 | due a day after the last check, and marked |
| `ReaderService.MailOncePerStreak` | platform/backend/src/afisha_reader.rs:836-873 | one mail per streak, at its second failure |
| `HtmlText.Decode` | platform/backend/src/afisha.rs:564-591 | the scanning loop, ending on every input |
| `HtmlText.ToText` | platform/backend/src/afisha.rs:543-561 | the tag loop, ending on every input |
| `HtmlText.RenderedTextReadsBack` | platform/backend/src/afisha.rs:543-591 | rendering with escapes and line-break tags reads back up to no-break spaces: exactly the texts without one come back as they were |
| `HtmlText.BreaksExactly` | platform/backend/src/afisha.rs:550-557 | which tags leave a line break, exactly; every other tag leaves nothing |
| `HtmlText.TagsDrop` | platform/backend/src/afisha.rs:543-561 | between tags the text is decoded, reading goes on behind a closed tag, and an unclosed one takes the rest |
| `HtmlText.NoBreakSpaces` | platform/backend/src/afisha.rs:560-561 | no result holds a no-break space |
| `HtmlText.NumericEntityReads` | platform/backend/src/afisha.rs:593-610 | the numeric entity of any character, decimal or in either hexadecimal form, resolves to it between any text without ampersands and any rest |
| `HtmlText.NamedEntitiesRead` | platform/backend/src/afisha.rs:593-601 | the six named entities resolve wherever they stand |
| `HtmlText.OtherNamesStay` | platform/backend/src/afisha.rs:570-610 | a name that is too long or no entity stays as written |
| `HtmlText.EntityNames` | platform/backend/src/afisha.rs:593-601 | there are no other names |
| `HtmlText.SignedNumberReads` | platform/backend/src/afisha.rs:593-610 | a plus sign before a number is read over |
| `HtmlText.OtherNumbersStay` | platform/backend/src/afisha.rs:593-610 | the numbers of surrogates, and those beyond Unicode, name no character |
| `HtmlText.NoSemicolonNoEntity` | platform/backend/src/afisha.rs:570-588 | an ampersand that opens no entity stays |
| `Slug.Translit` | platform/backend/src/afisha.rs:1040-1095 | the loop, the split and the join |
| `Slug.TranslitIsSlug` | platform/backend/src/afisha.rs:1040-1095 | lowercase Latin words joined by single hyphens |
| `Slug.LatinTable` | platform/backend/src/afisha.rs:1040-1085 | how each Russian and Serbian letter is spelled; Latin letters and digits stay, anything else separates |
| `Slug.TranslitKeepsLetters` | platform/backend/src/afisha.rs:1085-1095 | a slug holds the spelled letters of its title, all and in order |
| `Slug.WordsPart` | platform/backend/src/afisha.rs:1085-1095 | words are parted exactly at separators |
| `Slug.SlugIsFixed` | platform/backend/src/afisha.rs:1040-1095 | exactly the texts of that form are fixed points |
| `Slug.TranslitTwiceIsOnce` | platform/backend/src/afisha.rs:1040-1095 | a second transliteration changes nothing |
| `Slug.TruncateKeepsForm` | platform/backend/src/afisha.rs:1097-1105 | a prefix of the form within the limit, cut at a word, non-empty unless there is nothing or no room |
| `Slug.AddressSpelled` | platform/backend/src/afisha.rs:331-344 | an address is the day, the slug of the title cut to sixty, and the post number |
| `Slug.NumberReadExactly` | platform/backend/src/afisha.rs:331-344 | a number is read exactly from a text that is all digits, or ends in a hyphen and digits |
| `Slug.AddressEndsWithId` | platform/backend/src/afisha.rs:331-344 | the end of an address gives the post number back exactly when it is not negative |
| `Slug.AddressesDiffer` | platform/backend/src/afisha.rs:331-344 | distinct posts have distinct addresses |
| `Media.MapKeeps` | platform/backend/src/media.rs:153-174 | a rewrite keeps the shape, the names and every other value, and maps the strings in place |
| `Media.DataUriReads` | platform/backend/src/media.rs:95-109 | a data URI of a kept type reads to its type and bytes, or to nothing when it does not decode or is empty |
| `Media.PictureExactly` | platform/backend/src/media.rs:95-109 | a string is a picture exactly if it is a base64 data URI of a kept type with a payload that decodes to some bytes |
| `Media.MediaTypeReads` | platform/backend/src/media.rs:59-76 | the type is read whatever its case, the blanks around it and the parameters behind it |
| `Media.UrlResolves` | platform/backend/src/media.rs:117-127 | a new reference names its bytes and is no inline picture |
| `Media.ReferenceNames` | platform/backend/src/media.rs:119-127 | a reference names its last segment, query and fragment aside, and nothing unless that is 64 hexadecimal digits |
| `Media.MediaStore.Put` | platform/backend/src/media.rs:209-218 | bytes kept once under their digest, first media type wins |
| `Media.PutResolves` | platform/backend/src/media.rs:209-218 | storing loses nothing and keeps the addresses; the reference resolves, and to its own bytes exactly when no other bytes lie under that digest, so always while nothing met collides |
| `Uploads.CollectInline` | platform/backend/src/media.rs:391-401 | exactly the strings that may hold a picture, each once and sorted |
| `Uploads.Upload` | platform/backend/src/media.rs:414-423 | one upload: its reference and its bytes stored, nothing for what is no picture |
| `Uploads.JoinNext` | platform/backend/src/media.rs:180-192 | whichever upload finishes, the replacement map and the store agree |
| `Uploads.UploadAll` | platform/backend/src/media.rs:405-427 | at most eight in flight, exactly the smaller of eight and the number of strings on success; one replacement map for every completion order, and the store that the finishing order leaves |
| `UploadOrder.FinishesInSchedule` | platform/backend/src/media.rs:180-192 | whichever upload finishes first each time, the strings finish each once and each among the eight opened beyond those done |
| `UploadOrder.EveryScheduleFinishes` | platform/backend/src/media.rs:180-192 | and every such order is one in which they can finish |
| `UploadOrder.OneStoreExactly` | platform/backend/src/media.rs:391-427 | for every digest: every order of finishing leaves one store if and only if, for every address not yet stored, the strings with fewer than eight earlier ones of that address hold one picture under one media type |
| `UploadOrder.OneResultExactly` | platform/backend/src/media.rs:391-427 | the same over all choices of which upload in flight is done first; and as long as the pictures uploaded do not collide, the store is one exactly when those strings name one media type |
| `UploadOrder.TwoTypesOnePicture` | platform/backend/src/media.rs:391-427 | a concrete payload, one picture as a JPEG and as a PNG: the store keeps the type of whichever finishes first |
| `UploadOrder.ToyWorld` | platform/backend/src/media.rs:375-431 | a world that meets everything assumed of the base and the digest, with two pictures that do not collide: one payload leaves one store and another does not |
| `Uploads.StoreGrows` | platform/backend/src/media.rs:209-218 | in every order the store keeps what it held and gains nothing but pictures of these strings; all of them, as long as nothing met collides |
| `Uploads.ExternalizeTree` | platform/backend/src/media.rs:375-431 | the tree with every storable picture replaced and the number of distinct storable strings, for every completion order, and the store that order leaves, with all their bytes as long as nothing met collides; unchanged on an error, which happens exactly when a storable upload fails |
| `Media.NothingStorableLeft` | platform/backend/src/media.rs:375-431 | no storable picture is left anywhere in the tree |
| `Media.ExternalizedAt` | platform/backend/src/media.rs:375-431 | each string is its reference or as it was |
| `Uploads.ReferencesResolve` | platform/backend/src/media.rs:375-431 | each new reference finds the decoded bytes in a store that holds them |
| `Media.ExternalizingTwiceIsOnce` | platform/backend/src/media.rs:375-431 | a second move changes nothing |
| `Uploads.CountOfPictures` | platform/backend/src/media.rs:375-378 | the count is the number of distinct pictures exactly when none is written in two ways |
| `Uploads.Externalize` | platform/backend/src/media.rs:433-450 | the scalar door agrees with the tree |
| `Backfill.Service.VisitQuest` | platform/backend/src/backfill.rs:75-94 | decides and rewrites an authoring row: id and time of saving stay, cover and content follow |
| `Backfill.Service.VisitCard` | platform/backend/src/backfill.rs:109-121 | decides and rewrites a store card: its quest stays, its cover follows |
| `Backfill.Service.VisitSnapshot` | platform/backend/src/backfill.rs:128-141 | decides and rewrites a snapshot: its id stays, its content follows |
| `Backfill.Service.RunTable` | platform/backend/src/backfill.rs:68-108 | one table while the budget lasts; a row that changed has its pictures in the store, a row that did not is as it was |
| `Backfill.Service.Run` | platform/backend/src/backfill.rs:56-146 | the three tables under one budget, and a report that counts each table, the rows read and the images; after a failed upload the rows are a first stretch of a run; failed or not, nothing stored is lost and every row that changed has its pictures in the store |
| `Backfill.RowsFollow` | platform/backend/src/backfill.rs:75-141 | of the rows a run leaves, each read one is the same row with every storable string become the reference to its bytes and every other value as it was; the rest are untouched |
| `Backfill.TallyExactly` | platform/backend/src/backfill.rs:56-146 | the report, table by table: each is rewritten as far as what is left of the limit goes |
| `Backfill.ImagesExactly` | platform/backend/src/backfill.rs:83-141 | what counts as the images of a row |
| `Backfill.ImagesAddUp` | platform/backend/src/backfill.rs:83-141 | a run counts the images of exactly the rows it rewrote |
| `Backfill.SeenExactly` | platform/backend/src/backfill.rs:68-75 | the rows read end with the one that used up the budget, or with the table; complete exactly when every row was read |
| `Backfill.RunExactly` | platform/backend/src/backfill.rs:56-146 | rewrites the smaller of the limit and the work; incomplete only with the limit used up |
| `Backfill.CompleteWithin` | platform/backend/src/backfill.rs:41-49 | with m rows to move, run number m/limit + 1 is complete at the latest |
| `Backfill.CompleteMeansClean` | platform/backend/src/backfill.rs:41-46 | a complete run leaves no storable picture in any body, cover, card or snapshot |
| `Backfill.LaterRunsChangeNothing` | platform/backend/src/backfill.rs:10-17 | once clean, later runs change nothing |
| `Export.BuildExport` | platform/backend/src/export.rs:50-93 | the same archive whatever order the blobs arrive in: files in hash order, references rewritten |
| `Export.CollectHashes` | platform/backend/src/export.rs:24-30 | exactly the hashes the tree refers to |
| `Export.Fetch` | platform/backend/src/export.rs:63-86 | exactly the hashes with a blob, each once |
| `Export.LayOut` | platform/backend/src/export.rs:87-95 | one file per hash in order, and its path |
| `Export.OnlyOrphansRemain` | platform/backend/src/export.rs:32-42 | the rewritten record refers to exactly the hashes whose blob is missing |
| `Export.ReferencesNameFiles` | platform/backend/src/export.rs:32-42 | a reference with a blob reads as the path of its file, any other string as it was |
| `Export.FileNames` | platform/backend/src/media.rs:59-85 | a file lies in the media folder under its hash with the extension of its type |
| `Export.PathIsNoReference` | platform/backend/src/export.rs:32-42 | a path in the archive is no media reference |

## Left out

- Floating point: the percentage of `discount_amount` is computed in exact integers, half up; prices so large that the 64-bit float rounds are not modelled. Rating means are not modelled.
- Integer widths: coins, counters and amounts are unbounded; the wrap-around of 32-bit coin sums is not modelled.
- PaymentRuns.CapsAlwaysHold: coupon caps are fixed over a run; lowering a cap below what is already used, and deleting a coupon with its log, are not modelled.
- OpenPayments.OneOpenPayment: one direction only, since two overlapping checkouts need not both reach their insert; the exact condition is `OpenPayments.OneOpenExactly`.
- PaymentService.Server.Checkout: titles, return URLs and descriptions sent to the gateway are not modelled; a failure of a store call is a crash of the process.
- PaymentService.Server.MockCheckout: coupon codes arrive normalized or blank; the normalization itself is not modelled.
- FactStore.BonusesOnceEver: deleting an account removes its logs and so allows a bonus again; deletion is not an action of the model.
- Announcement.EveryStory: the template parser, the kind a text speaks of, the registration link and trimming are parameters; the list of cities is fixed.
- ReaderService.ReaderPass.Sync: mail and the search-engine ping are not modelled; a storage failure is a pass that stops, which the machine allows at any step but the method does not show; downloads run ahead in parallel are answers keyed by post; the result is conditional on distinct post numbers.
- ChannelPages.CatchUpMissesNothing: for a channel that does not change between the fetches of one sync; the sync itself is for any pages.
- Uploads.ExternalizeTree: an upload abandoned after another one failed may still land in the store; it is content-addressed, and the model stops at the failure.
- Uploads.UploadAll: an upload stores its bytes where it is waited for; the order in which the store calls really happen is itself one of the finishing orders, since a string is opened only after all but seven of those before it are done.
- Media.MediaStore.Put: the remote bucket is modelled by the in-process store; its status codes are failures.
- Backfill.RunExactly: without concurrent writers, so no row is contended; the lists keep their order between runs.
- Export.BuildExport: the manifest, the serialization and the zip container are not modelled.
- Strings are sequences of characters; the byte indices of the scanners coincide with them because everything they look for is ASCII.
- Per-version statistics, review pages, the analytics counters and legacy migration (facts.rs) are folds of the same kind as those proved.
- `check_upcoming`, `import_link` error answers, channel-name parsing and date scanning in post texts (afisha.rs, afisha_reader.rs).
- HTTP routing, authentication, settings, feature registries, mail and icons.
