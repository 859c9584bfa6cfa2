# Verified model of the delivery backend's dispatch, pricing and money cores

This project models the parts of the backend in which a mistake costs an order, a
price or a balance, and proves what they keep over every input and every run.

- **Dispatch** (`EligibleRiders`, `Dispatch`, `DispatchProgress`): the search for riders
  and the auto-popup chain of one order. The state is the three Redis keys with their
  expiry times, the pending timeout jobs, the order row and its decline rows. Every
  handler is one atomic step at a clock reading in milliseconds; a key is gone once its
  expiry time is reached. The safety results hold for any clock readings; the progress
  result needs timeout jobs that run less than five seconds late.
- **Surge and price** (`SurgeRegistry`, `Pricing`): the table of surge rules with its
  overlap guard, the four-level lookup, and the price computation that uses it.
- **Ledger** (`IncentiveRules`, `Ledger`, `LedgerProofs`, `LedgerEffects`): every modelled operation that
  moves `currentWalletBalance` or `totalWalletBalance`. An operation that throws leaves
  the tables as they were.
- **Riders** (`TierScore`, `Competition`, `Fleet`, `StatsSync`): the weekly tier score,
  the competition winner, availability and online sessions, and the cursor-paged
  statistics job.

Services that update rows or keys are classes whose methods are proved equal, step by
step, to functions on values (`View() == Apply(old(View()), ...)`); the theorems are
about runs of those functions. `Common`, `Rounding` and `Sorting` hold shared vocabulary.
Amounts, ratios and distances are exact reals, and `toFixed` is rounding to the nearest
multiple with halves away from zero.

Assumptions: each handler, transaction or job body is atomic, although the code awaits
between its checks and its writes; distances, clock readings, Stripe outcomes and metric
values are parameters.

## Where the code differs from its own description

- Riders for orders that are not pooled are searched with `is_available: false`, while the
  comment above says "only available drivers". The model follows the code.
- The fourth level of the surge lookup is described as the global rule but has no filter,
  so a rule restricted to one zone also answers for every other zone. On a disjoint table
  the zone and type filters have no effect at all (`ResolveIsLookup`).
- `maxCap` is a decimal object and therefore applies even when it is zero.
- Switching a surge rule on by a toggle or a status-only update skips the overlap check.
  `ApplyDisjointIff` gives the exact condition under which the table stays disjoint.
- The popup chain is not always resolved in time. A second decline row is refused after
  the timeout job was removed, and nothing goes on. Such a row may come from before the
  start or, while the order is PENDING, from the order feed, which ignores the popup.
  A run ends in time exactly when somebody accepts or no such decline is made
  (`ResolvesIff`); which orders are safe in all runs is `AlwaysResolvesIff`.
- An accepted order is protected for the hour its key lives; a second chain started later
  reopens it (`AcceptedOnceUntilExpiry`, `RestartHarmlessIff`).
- The invitation guard of PLATINUM can never apply, because the walk reaches PLATINUM only
  when PLATINUM is the suggested code.
- A popup acceptance leaves the availability flag alone, so a rider marked available who
  accepts holds an ONGOING order while available (`ApplyFreeIff`).
- A dispute can be resolved again and pays again, exactly when the refund is full or the
  rider can still cover the share (`ResolvesAgainIff`); an appeal cannot.
- A negative rider percentage passes the split guard and is not settled with the rider
  (`RefundBalances`).
- The competition's "3 km" filter compares with 2,000,000 km.

## Model

| member | source | states |
|---|---|---|
| `EligibleRiders.FindEligibleDrivers` | src/modules/raider_root/auto_popup_services/auto-popup.service.ts:36-105 | a rider is listed, once and with its own figures, exactly when it is approved, not suspended, has auto-popup on, an active GOLD or PLATINUM tier, the availability flag the search asks for, and lies within its own radius or else the given one; the list is a sort result |
| `EligibleRiders.ListedIffFaultless` | src/modules/raider_root/auto_popup_services/auto-popup.service.ts:44-91 | any permutation of what the search collects holds exactly the riders without one of these faults |
| `EligibleRiders.ComparatorAntisymmetric` | src/modules/raider_root/auto_popup_services/auto-popup.service.ts:94-98 | swapping the arguments negates the comparator |
| `EligibleRiders.ComparatorNotTransitive` | src/modules/raider_root/auto_popup_services/auto-popup.service.ts:66-98 | the search collects, from riders of two tiers with one score each, a list on which the comparator is not transitive |
| `EligibleRiders.NoStrictCycle` | src/modules/raider_root/auto_popup_services/auto-popup.service.ts:83-98 | with one score for each of the two tiers no three riders are ordered in a strict cycle |
| `EligibleRiders.ConsistentIff` | src/modules/raider_root/auto_popup_services/auto-popup.service.ts:94-98 | on every list, mixed tiers included, the comparator is transitive if and only if no two steps of at most 0.5 km at falling priority lead more than 0.5 km nearer |
| `EligibleRiders.NearTransitiveIsConsistent` | src/modules/raider_root/auto_popup_services/auto-popup.service.ts:94-98 | if "within 0.5 km" is transitive on the list, the comparator is |
| `EligibleRiders.SameTierConsistentIff` | src/modules/raider_root/auto_popup_services/auto-popup.service.ts:94-98 | among riders of one tier the comparator is transitive if and only if "within 0.5 km" is |
| `EligibleRiders.NearestGroupFirst` | src/modules/raider_root/auto_popup_services/auto-popup.service.ts:93-98 | any sort result is nearest group first with contiguous groups, and descending priority inside a group |
| `Dispatch.AutoPopupService.StartPopupChain` | src/modules/raider_root/auto_popup_services/auto-popup.service.ts:111-145 | stores the queue and makes the first offer, announces an empty list, or does nothing once accepted |
| `Dispatch.AutoPopupService.PopupNextDriver` | src/modules/raider_root/auto_popup_services/auto-popup.service.ts:151-246 | takes the head of the live queue, renews both keys and adds one timeout job per rider, or falls back to the public queue |
| `Dispatch.AutoPopupService.HandleDriverAccepted` | src/modules/raider_root/auto_popup_services/auto-popup.service.ts:251-300 | succeeds exactly for the rider holding the live popup of an existing order, locks the keys and assigns the row |
| `Dispatch.AutoPopupService.HandleDriverDeclined` | src/modules/raider_root/auto_popup_services/auto-popup.service.ts:305-326 | only the holder's decline counts; it fails exactly when the decline row cannot be written |
| `Dispatch.AutoPopupService.HandlePopupTimeout` | src/modules/raider_root/auto_popup_services/auto-popup.service.ts:331-346 | moves on only for the rider holding the live popup of an order nobody accepted |
| `Dispatch.AutoPopupService.DeclineOrderInFeed` | src/modules/users_root/order/order.feed.services.ts:413-466 | writes a decline row for a PENDING order without one, whatever the popup keys hold; fails otherwise |
| `Dispatch.AutoPopupService.MoveToPublicQueue` | src/modules/raider_root/auto_popup_services/auto-popup.service.ts:351-364 | sets the row to PENDING and announces it, leaving all keys alone; nothing happens without a row |
| `Dispatch.DeclineRows` | src/modules/raider_root/auto_popup_services/auto-popup.service.ts:305-325 | a decline row is written for the holder who declines the popup and for whoever declines a PENDING order in the feed; none is ever removed |
| `Dispatch.Lifetimes` | src/modules/raider_root/auto_popup_services/auto-popup.service.ts:172-270 | an offer lives twenty seconds, its queue ten minutes and its job falls due after fifteen seconds; an accept is remembered for an hour |
| `Dispatch.RunSound` | src/modules/raider_root/auto_popup_services/auto-popup.service.ts:111-364 | the invariant that every run with at most one start keeps, for any clock readings |
| `Dispatch.AcceptedOnceUntilExpiry` | src/modules/raider_root/auto_popup_services/auto-popup.service.ts:118-346 | with any number of starts, none of them at or after the expiry of the accepted key: at most one accept succeeds, by a listed rider who was offered the order last, and nothing later offers, announces or reassigns it |
| `Dispatch.AcceptedOnce` | src/modules/raider_root/auto_popup_services/auto-popup.service.ts:251-346 | with at most one start the same holds for ever: nothing later offers, announces, reassigns or returns the order to PENDING, even after the accepted key expires |
| `Dispatch.RestartHarmlessIff` | src/modules/raider_root/auto_popup_services/auto-popup.service.ts:118-145 | a later start leaves an accepted order alone if and only if the accepted key still lives; otherwise the first listed rider can take it |
| `Dispatch.OfferedPrefix` | src/modules/raider_root/auto_popup_services/auto-popup.service.ts:135-189 | offered riders followed by the stored queue are the eligible list; the public queue comes only after all were offered, and the order is PENDING there |
| `Dispatch.QueueOutlivesPopup` | src/modules/raider_root/auto_popup_services/auto-popup.service.ts:136-189 | whoever holds the live popup finds the queue key alive, so the chain never ends because its queue expired |
| `DispatchProgress.TimeoutFindsItsOffer` | src/modules/raider_root/auto_popup_services/auto-popup.service.ts:183-245 | in every run with at most one start, a pending timeout job that runs on time finds its rider still active and the queue alive |
| `DispatchProgress.ResolvesIff` | src/modules/raider_root/auto_popup_services/auto-popup.service.ts:172-346 | a timely run of a chain of n riders has ended within 20 n seconds if and only if somebody accepted, or the order row exists and no holder with a decline row declined the undecided order |
| `DispatchProgress.ResolvesInTime` | src/modules/raider_root/auto_popup_services/auto-popup.service.ts:172-245 | without such a decline a timely chain of n riders is accepted or public within 20 n seconds |
| `DispatchProgress.PriorDeclineStalls` | src/modules/raider_root/auto_popup_services/auto-popup.service.ts:305-325 | a rider with an earlier decline row stalls the chain on a timely run |
| `DispatchProgress.FeedDeclineStalls` | src/modules/users_root/order/order.feed.services.ts:413-466 | a rider who declines a PENDING order in the feed and then declines its popup stalls the chain |
| `DispatchProgress.AlwaysResolvesIff` | src/modules/raider_root/auto_popup_services/auto-popup.service.ts:172-346 | all timely runs end within 20 n seconds if and only if the order row exists, no eligible rider has a decline row at the start and, where the feed is open to declines, the order is not PENDING or the list is empty |
| `SurgeRegistry.SurgePricingRuleService.CreateRule` | src/modules/superadmin_root/surge_pricing_rule/surge_pricing_rule.service.ts:21-70 | the checks in order, the new row, and a disjoint table stays disjoint |
| `SurgeRegistry.SurgePricingRuleService.UpdateRule` | src/modules/superadmin_root/surge_pricing_rule/surge_pricing_rule.service.ts:124-186 | the merged row; a disjoint table stays disjoint if and only if the update is no unsafe re-activation |
| `SurgeRegistry.SurgePricingRuleService.CheckUpdate` | src/modules/superadmin_root/surge_pricing_rule/surge_pricing_rule.service.ts:125-140 | the range is checked, against all other ACTIVE rules, only when a bound is sent |
| `SurgeRegistry.SurgePricingRuleService.RemoveRule` | src/modules/superadmin_root/surge_pricing_rule/surge_pricing_rule.service.ts:190-208 | removes one row and keeps the table disjoint |
| `SurgeRegistry.SurgePricingRuleService.ToggleStatus` | src/modules/superadmin_root/surge_pricing_rule/surge_pricing_rule.service.ts:212-240 | flips the status without a range check; disjointness is kept if and only if no ACTIVE rule shares a ratio |
| `SurgeRegistry.SurgePricingRuleService.ValidateRatioOverlap` | src/modules/superadmin_root/surge_pricing_rule/surge_pricing_rule.service.ts:323-342 | true if and only if some other ACTIVE range clashes |
| `SurgeRegistry.AcceptedIff` | src/modules/superadmin_root/surge_pricing_rule/surge_pricing_rule.service.ts:21-240 | a command is carried out exactly when its zones and types exist, its row exists, and a range it creates or sends shares no ratio with another ACTIVE row |
| `SurgeRegistry.RowAfter` | src/modules/superadmin_root/surge_pricing_rule/surge_pricing_rule.service.ts:124-240 | each row survives every accepted command but its own deletion, and changes only by its own update, column by column as sent, or by its own toggle |
| `SurgeRegistry.RowAdded` | src/modules/superadmin_root/surge_pricing_rule/surge_pricing_rule.service.ts:43-63 | an accepted create adds one row with the columns sent and takes the next id |
| `SurgeRegistry.ApplyDisjointIff` | src/modules/superadmin_root/surge_pricing_rule/surge_pricing_rule.service.ts:21-240 | a command keeps "no ratio is covered twice" if and only if it does not re-activate a rule over a covered ratio |
| `SurgeRegistry.RunDisjoint` | src/modules/superadmin_root/surge_pricing_rule/surge_pricing_rule.service.ts:21-240 | the table stays disjoint over every run without such a re-activation |
| `SurgeRegistry.CheckedRunDisjoint` | src/modules/superadmin_root/surge_pricing_rule/surge_pricing_rule.service.ts:21-208 | in particular over creates, range-changing updates, deletes and deactivations from an empty table |
| `SurgeRegistry.ReactivationBreaksDisjointness` | src/modules/superadmin_root/surge_pricing_rule/surge_pricing_rule.service.ts:212-240 | a run with a re-activation after which one ratio is covered twice |
| `SurgeRegistry.FindBest` | src/modules/superadmin_root/surge_pricing_rule/surge_pricing_rule.service.ts:254-276 | a matching rule with the highest multiplier, newest first, if any matches |
| `SurgeRegistry.ResolveIsLookup` | src/modules/superadmin_root/surge_pricing_rule/surge_pricing_rule.service.ts:251-321 | on a disjoint table the cascade returns the unique ACTIVE covering rule, whatever zone and type are asked for, at the greatest number above neither its multiplier nor its cap, or 1.0 |
| `SurgeRegistry.ResolveSound` | src/modules/superadmin_root/surge_pricing_rule/surge_pricing_rule.service.ts:296-320 | on any table a match comes from a covering ACTIVE rule, is its multiplier or, where lower, its cap, and exists if and only if one covers |
| `SurgeRegistry.SpecificRuleWins` | src/modules/superadmin_root/surge_pricing_rule/surge_pricing_rule.service.ts:278-295 | no covering rule answers zone and type more specifically than the one found, which among equally specific ones has the highest multiplier, the newest first |
| `Pricing.CalculatePriceWithFee` | src/modules/dynamic_pricing/pricing.service.ts:8-169 | every stage is accounted for once; total = charge + total fee = (charge + fees) x zone x dynamic x surge + surcharge, also when a surge source fails |
| `Pricing.DynamicStage` | src/modules/dynamic_pricing/pricing.service.ts:61-105 | the amount that the first matching window adds to the price, zero on failure |
| `Pricing.SurgeStage` | src/modules/dynamic_pricing/pricing.service.ts:107-125 | the amount that the resolved demand surge adds to the price, zero on failure |
| `Pricing.WindowIsCircular` | src/modules/dynamic_pricing/pricing.service.ts:91-94 | a window is an arc of the clock face, also over midnight |
| `Pricing.RoundedTotalWithinOneCent` | src/modules/dynamic_pricing/pricing.service.ts:132-166 | after rounding, charge plus total fee is within one cent of the total |
| `Pricing.OneCentHappens` | src/modules/dynamic_pricing/pricing.service.ts:154-166 | there is a quote whose rounded amounts differ by that cent |
| `Pricing.SplitWithinTwoCents` | src/modules/dynamic_pricing/pricing.service.ts:127-167 | platform fee + earnings + surcharge is the total if and only if earnings are not clamped, and then within two cents after rounding |
| `Pricing.ShownIsNear` | src/modules/dynamic_pricing/pricing.service.ts:154-168 | every amount shown is its stage to the nearest cent, multipliers to four decimals, and the earnings are what the platform leaves, never negative |
| `Pricing.CommissionRaisesFee` | src/modules/dynamic_pricing/pricing.service.ts:182-224 | a commission row raises the platform fee by its percentage of the price if it applies in the zone, else by nothing |
| `Pricing.CompensationLowersFee` | src/modules/dynamic_pricing/pricing.service.ts:192-230 | a compensation row lowers it by its percentage of the price |
| `Pricing.DeductionRaisesFee` | src/modules/dynamic_pricing/pricing.service.ts:202-240 | a fixed deduction raises it by its amount, a percentage one by its share, another kind by nothing |
| `Pricing.NoRowsNoFee` | src/modules/dynamic_pricing/pricing.service.ts:176-240 | without rows the platform fee is zero |
| `Pricing.FeeAddsAmount` | src/modules/dynamic_pricing/pricing.service.ts:33-53 | a fee row adds its amount exactly when it is active, applies in the zone and is due by its rule |
| `Pricing.ChargeByDistance` | src/modules/dynamic_pricing/pricing.service.ts:22-31 | up to the included distance the charge is the base price times the multiplier; every further kilometre costs the rate times the multiplier |
| `Pricing.WindowIsPercentage` | src/modules/dynamic_pricing/pricing.service.ts:61-105 | the first running window multiplies by its percentage; without one, or on failure, nothing changes |
| `Pricing.SurgeIsCoveringRule` | src/modules/dynamic_pricing/pricing.service.ts:107-125 | the demand stage multiplies by an ACTIVE rule covering the demand per driver, at the lower of multiplier and cap; without one, or on failure, nothing changes |
| `Pricing.SurgeIsMostSpecific` | src/modules/dynamic_pricing/pricing.service.ts:112-117 | where several rules cover the demand, the price uses one that names zone and delivery type most specifically |
| `Pricing.SurchargeIsFlat` | src/modules/dynamic_pricing/pricing.service.ts:132-135 | the stop surcharge comes on top of the price, unscaled |
| `Pricing.StaysChargedIff` | src/modules/dynamic_pricing/fee.helper.ts:1-21 | a fee once charged stays charged as distance and amount grow, if and only if it is no active "less than" rule on them that a non-negative value can satisfy |
| `Pricing.FeeSumMonotone` | src/modules/dynamic_pricing/fee.helper.ts:1-21 | without such rules the sum of the fees is non-decreasing in distance and amount |
| `Pricing.TotalMonotoneInDistance` | src/modules/dynamic_pricing/pricing.service.ts:23-59 | with surge inputs fixed, a longer road never lowers the total, before and after rounding |
| `Pricing.NeverCheaperIff` | src/modules/dynamic_pricing/fee.helper.ts:11-14 | every price with this fee is non-decreasing in the distance if and only if the fee is no such rule |
| `Pricing.TotalMonotoneInRoute` | src/modules/dynamic_pricing/getReceiversWithPrice.ts:43-48 | the total is non-decreasing in the distance, the return factor, and from one-way to round trip |
| `Pricing.ReceiversWithPrice` | src/modules/dynamic_pricing/getReceiversWithPrice.ts:40-89 | one price per receiver, in order, with every amount that of the quote for its distance with the return leg added |
| `Pricing.PriceUnique` | src/modules/dynamic_pricing/pricing.service.ts:132-168 | the accounting identities have exactly one solution for a quote: all thirteen amounts of its price |
| `TierScore.ScoreMonotone` | src/modules/raider_root/raider-rank.service.ts:171-205 | better figures never lower the score or the suggested band |
| `TierScore.PlatinumNeedsEverything` | src/modules/raider_root/raider-rank.service.ts:7-23 | no score exceeds 90; PLATINUM needs every rounded part at its maximum and no complaint |
| `TierScore.BandIff` | src/modules/raider_root/raider-rank.service.ts:200-205 | the thresholds 90, 70 and 50 of the bands |
| `TierScore.StoredAverageIsExact` | src/modules/raider_root/raider-rank.service.ts:135-139 | the stored average is the rounded average the rating part came from |
| `TierScore.ComplaintsCost` | src/modules/raider_root/raider-rank.service.ts:182 | two points per complaint, ten at most |
| `TierScore.PartsAreShares` | src/modules/raider_root/raider-rank.service.ts:173-181 | completion, acceptance and orders earn their weighted shares to the nearest cent, up to their caps |
| `TierScore.ScoreIsCents` | src/modules/raider_root/raider-rank.service.ts:184-185 | the total is the sum of the parts less the deduction, exactly, unless that is negative or above 100 |
| `TierScore.WalkFinds` | src/modules/raider_root/raider-rank.service.ts:208-239 | the walk ends at the first open band at or below the suggestion, or at the tier of lowest priority |
| `TierScore.ResolvedTierAllowed` | src/modules/raider_root/raider-rank.service.ts:208-239 | unless it is the fallback the tier is not better than suggested, and GOLD needs the opt-in and forty hours; no admissible tier at or below the suggestion ranks higher |
| `TierScore.NeverDemotesIff` | src/modules/raider_root/raider-rank.service.ts:208-239 | a better score never lowers the tier if and only if BRONZE is active or no open band ranks below the fallback |
| `TierScore.TierMonotone` | src/modules/raider_root/raider-rank.service.ts:171-239 | with BRONZE active, improving any scored figure never lowers the resolved tier |
| `TierScore.RaiderRow.ProcessRaider` | src/modules/raider_root/raider-rank.service.ts:94-154 | a held manual tier is untouched; otherwise average, score and history change exactly when the tier does |
| `IncentiveRules.Evaluator.EvaluateGroup` | src/modules/superadmin_root/incentive/incentive.service.ts:140-161 | the cached, short-circuited check of a group is "all rules hold" |
| `IncentiveRules.Evaluator.UserMeetsRuleGroups` | src/modules/superadmin_root/incentive/incentive_corn.serviec.ts:222-265 | the answer is "no groups, or some group holds", and no metric is fetched twice |
| `IncentiveRules.QualifiesIff` | src/modules/superadmin_root/incentive/incentive.service.ts:120-184 | a user qualifies exactly when the user's figures meet every rule of some group, each operator read as its comparison |
| `IncentiveRules.ConsecutiveTrips` | src/modules/superadmin_root/incentive/incentive.service.ts:235-251 | the loop finds the length of the longest unbroken series of completed orders |
| `Ledger.Database.AddMoneyForTest` | src/common/wallet/wallet.service.ts:92-99 | credits both balances |
| `Ledger.Database.AddMoneyByWebhook` | src/common/wallet/wallet.service.ts:841-897 | records and credits an unrecorded intent of a known user, and nothing else |
| `Ledger.Database.PaymentFailed` | src/common/wallet/wallet.service.ts:678-712 | records a failure once; a second record for the intent is refused |
| `Ledger.Database.WithdrawMoney` | src/common/wallet/wallet.service.ts:1250-1295 | lowers only the current balance, when it covers the amount |
| `Ledger.Database.Redeem` | src/modules/superadmin_root/coin_management/coin_management.service.ts:179-206 | turns coins the user holds into both balances |
| `Ledger.Database.Gift` | src/modules/superadmin_root/coin_management/coin_management.service.ts:379-404 | adds a positive number of coins to both coin counters |
| `Ledger.Database.CollectByHand` | src/modules/superadmin_root/incentive/incentive.service.ts:640-721 | pays a manual incentive when all its gates are open |
| `Ledger.Database.CollectAutomatically` | src/modules/superadmin_root/incentive/incentive_corn.serviec.ts:145-197 | pays an automatic incentive to a user who was not paid yet and qualifies |
| `Ledger.Database.Resolve` | src/modules/superadmin_root/dispute/dispute.service.ts:188-269 | the guards and the settlement of a dispute |
| `Ledger.Database.CreateAppeal` | src/modules/raider_root/dispute_appeal/dispute_appeal.service.ts:31-92 | one appeal per resolved open dispute, by a participant |
| `Ledger.Database.ResolveAppealOf` | src/modules/raider_root/dispute_appeal/dispute_appeal.service.ts:194-306 | the guards, the final status and the settlement of an appeal |
| `LedgerProofs.ApplyKeeps` | src/modules/superadmin_root/dispute/dispute.service.ts:219-269 | one operation keeps 0 <= current <= total and moves their difference by its withdrawal only |
| `LedgerProofs.RunSolvent` | src/common/wallet/wallet.service.ts:855-897 | over every run with non-negative amounts each user keeps 0 <= current <= total, and the difference grows by exactly that user's withdrawals |
| `LedgerEffects.WithdrawalLowersBalance` | src/common/wallet/wallet.service.ts:1250-1295 | a permitted withdrawal lowers that user's current balance by the amount and touches nothing else; any other attempt changes nothing |
| `LedgerEffects.OperationBooked` | src/common/wallet/wallet.service.ts:855-897 | one law for every operation and every user: total moves by what is credited, current by that less the withdrawal, coins by the gifts less the redemptions; who is not concerned is left alone |
| `LedgerEffects.RunBooked` | src/common/wallet/wallet.service.ts:855-897 | conservation over every run: each user's total grows by exactly the credits less the refund shares debited, current by that less the withdrawals |
| `LedgerEffects.ClaimsWritten` | src/modules/superadmin_root/incentive/incentive.service.ts:640-721 | a claim row is written exactly when a reward is paid, for the amount paid |
| `LedgerEffects.DisputesMarked` | src/modules/superadmin_root/dispute/dispute.service.ts:219-269 | a settled dispute is resolved; an accepted appeal leaves its dispute resolved only if an amount was paid |
| `LedgerEffects.AppealsMarked` | src/modules/raider_root/dispute_appeal/dispute_appeal.service.ts:210-306 | a settled appeal gets its final status; the others stay |
| `LedgerEffects.AppealFiled` | src/modules/raider_root/dispute_appeal/dispute_appeal.service.ts:31-92 | an appeal is opened exactly when a party to a resolved, not yet closed dispute of that order files the first one |
| `LedgerProofs.CreditedOnceIff` | src/common/wallet/wallet.service.ts:461-479 | an intent is credited at most once, and once if and only if a success precedes every recorded failure |
| `LedgerProofs.SuccessesConfluent` | src/common/wallet/wallet.service.ts:841-897 | with success events only, balances depend only on the set of distinct intents |
| `LedgerProofs.RunPayoutsBounded` | src/modules/superadmin_root/incentive/incentive.service.ts:661-682 | over every run an automatic incentive is paid once per user and a manual one at most its set limit |
| `LedgerEffects.RunWithinLimit` | src/modules/superadmin_root/incentive/incentive_corn.serviec.ts:145-197 | the same on the claim rows: at most one per user of an automatic incentive, at most the set limit of a manual one |
| `LedgerProofs.SplitValidIff` | src/modules/superadmin_root/dispute/dispute.service.ts:221-234 | a partial refund of a non-zero amount passes its guard if and only if the percentages sum to 100 |
| `LedgerProofs.RefundBalances` | src/modules/superadmin_root/dispute/dispute.service.ts:236-269 | the customer's credit is rider debit plus company share if and only if the rider's share is not negative; nobody else's balance moves |
| `LedgerProofs.AppealResolvedOnce` | src/modules/raider_root/dispute_appeal/dispute_appeal.service.ts:210-306 | after an appeal was resolved, every later attempt in the run changes nothing |
| `LedgerProofs.ResolvesAgainIff` | src/modules/superadmin_root/dispute/dispute.service.ts:188-269 | every refund that was resolved once passes its guards again if and only if it is full or the rider can still cover the share |
| `LedgerProofs.DisputeResolvedAgain` | src/modules/superadmin_root/dispute/dispute.service.ts:188-269 | a second resolution pays the whole amount again if and only if the refund is full, costs the rider nothing, or the rider held twice the share; otherwise nothing changes |
| `Competition.ValidDriversInOrder` | src/core/workers/competition.worker.ts:132-225 | the competitor list without the riders that do not exist or have no active location, in list order |
| `Competition.CandidatesInOrder` | src/core/workers/competition.worker.ts:223-270 | the competitor list without those who are no nearby candidates, or not elite although one is: nothing reordered, dropped or doubled |
| `Competition.WinnerIsBest` | src/core/workers/competition.worker.ts:223-292 | the winner is a valid nearby competitor, elite if one is, first of the best rounded scores among the candidates, within 0.001 of every raw score |
| `Competition.WinnerIsFirstBest` | src/core/workers/competition.worker.ts:223-292 | the winner stands at the first position of the competitor list that has the best rounded score of all candidates |
| `Competition.WinnerByFigures` | src/core/workers/competition.worker.ts:223-292 | on the riders' own figures: a winner exists exactly when a competitor is in the race; it is elite if anybody is, and no rival of its standing has an advantage beyond the rounding |
| `Competition.ScoreIsLinear` | src/core/workers/competition.worker.ts:272-276 | tier, rating and followers move the score by their weights per unit, and a kilometre costs a tenth of a point |
| `Competition.ScoreOfNothing` | src/core/workers/competition.worker.ts:272-276 | a rider with all figures zero at distance zero scores zero |
| `Competition.WinnerIsNearest` | src/core/workers/competition.worker.ts:272-292 | with non-negative weights no rival of its standing who is at least as good on the other figures is more than 0.01 km nearer than the winner |
| `Competition.LosersAreTheRest` | src/core/workers/competition.worker.ts:412 | all other competitors and never the winner are told they lost |
| `Fleet.RaiderService.SetOnline` | src/modules/raider_root/raider gateways/raider.service.ts:46-86 | opens a session unless one is open and marks the rider available unless it holds an ONGOING order |
| `Fleet.RaiderService.SetOffline` | src/modules/raider_root/raider gateways/raider.service.ts:89-122 | closes the open session and clears both flags |
| `Fleet.RaiderService.LogoutRider` | src/modules/auth/auth.service.ts:161-189 | closes the open session and clears the online flag only |
| `Fleet.RaiderService.RunCompetition` | src/core/workers/competition.worker.ts:66-334 | assigns an open competition to its winner, together with the winner's flag, and returns the losers |
| `Fleet.ApplyFreeIff` | src/modules/raider_root/raider gateways/raider.service.ts:73-85 | a step keeps available riders free of ONGOING orders if and only if it is not a popup accepted by an available rider |
| `Fleet.FlagsAfter` | src/modules/raider_root/raider gateways/raider.service.ts:46-122 | what each step does to a rider's two flags: going online makes available exactly the riders without an ONGOING order |
| `Fleet.OrderAfter` | src/core/workers/competition.worker.ts:313-334 | what each step does to an order: only an assigning job or a popup accept changes it |
| `Fleet.WinnerIff` | src/core/workers/competition.worker.ts:66-312 | a job assigns exactly when its order is open and ready and its chosen rider is known; the rider is a competitor in the race |
| `Fleet.RunFree` | src/core/workers/competition.worker.ts:313-334 | over every interleaving without popup accepts a rider holding an ONGOING order is never marked available |
| `Fleet.AssignedOnce` | src/core/workers/competition.worker.ts:71-74 | an order is assigned by competition at most once, also when its job is redelivered |
| `Fleet.RunSessions` | src/modules/raider_root/raider gateways/raider.service.ts:53-112 | with a monotone clock at most one session is open and no two overlap |
| `Fleet.SessionsMeasureOnlineTime` | src/modules/raider_root/raider gateways/raider.service.ts:46-122 | the sessions add up to exactly the time the rider was online |
| `Fleet.OnlineHoursBounded` | src/modules/superadmin_root/incentive/incentive.service.ts:253-263 | ONLINE_HOURS is at most the time since the first session plus the rounding |
| `Fleet.OnlineHoursExact` | src/modules/superadmin_root/incentive/incentive.service.ts:253-263 | ONLINE_HOURS is the time spent online, to the nearest hundredth |
| `StatsSync.SyncStatsWithRetry` | src/modules/raider_root/riders_profile/rider_corn.services.ts:85-95 | at most three tries, ending with the first that succeeds |
| `StatsSync.NextPage` | src/modules/raider_root/riders_profile/rider_corn.services.ts:42-52 | the page at the cursor continues the list and is empty only at its end |
| `StatsSync.PageLength` | src/modules/raider_root/riders_profile/rider_corn.services.ts:42-52 | a batch is a hundred riders, or all that are left |
| `StatsSync.SyncAllRaiderStats` | src/modules/raider_root/riders_profile/rider_corn.services.ts:32-82 | the loop ends after visiting every active unsuspended raider once, in id order, and synced plus failed is their number |

## Left out

- Interleavings at the awaits inside one handler: the code's checks are not atomic there, and the model takes each handler, transaction or job body as one step.
- Binary floating point: sums and percentages are exact, so the split guard is modelled without rounding errors.
- Haversine, point-in-polygon and road distances: any distance is allowed.
- The text of time windows and of fee rule values: windows are minutes, and a rule value comes with its reading as a number.
- `EligibleRiders.FindEligibleDrivers`: does not fix the order an engine produces for an inconsistent comparator, because JavaScript leaves it open; the other results hold for any permutation.
- `Dispatch.AcceptedOnceUntilExpiry`: leaves out starts at or after the expiry of the accepted key, which reopen the order as RestartHarmlessIff shows.
- Other services that change the order row of a running chain, such as cancellation: not part of this model.
- `LedgerProofs.RunSolvent`: speaks of the modelled operations with non-negative amounts; order payments, tips, referrals and admin adjustments move balances too and are not part of this model.
- `Fleet.RunFree`: leaves out orders that other services complete, cancel or assign.
- Equality of balances with sums of wallet history: saved-card payments, dispute moves and history deletion do not maintain it.
- Schedules of incentives, claim expiry dates and the other metric queries: the first two enter as flags, the metrics as values fixed during one check.
- Order payments by webhook, cards, notifications, sockets, permissions and the CRUD modules: no balance move or protocol of the kind proved here.
