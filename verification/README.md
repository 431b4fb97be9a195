# The order, money and stock core of the shop, in Dafny

This project models what the ordering back end does to its tables and proves laws about it.
`dafny verify dfyconfig.toml` checks everything.

## How it is laid out

| file | content |
|---|---|
| `Common.dfy` | optional values; weighted sums over rows and how appending, replacing, deleting and permuting rows change them |
| `ShopData.dfy` | the tables (`Db`), well-formedness, and units and money on a set of orders |
| `Pos.dfy` | the till: discount, split, merge, recalculation |
| `PosSplit.dfy`, `PosMerge.dfy` | what splitting and merging move, conserve, create and lose; how far merging undoes splitting |
| `Orders.dfy`, `OrderEffects.dfy` | carts, checkout, quick orders, cancelling; cancelling undoes a sale |
| `Inventory.dfy` | adjustments and bulk updates; reading the inventory log back |
| `Lifecycle.dfy` | every endpoint as a step of one machine; runs |
| `Requests.dfy` | what each step comes to, read off the request and the tables it meets; which steps stay in their shop |
| `Laws.dfy` | laws of every run: stored totals, and the stock ledger |
| `StatusLog.dfy` | law of every run: status log against status |
| `ShopService.dfy` | the class `Shop`: the same operations as the code runs them, with loops, updates in place and rollback; `Handle` carries out any step |
| `OrderPayments.dfy` | payment transactions of the orders and callbacks, beside every other request |
| `Coupons.dfy`, `Promotions.dfy`, `Points.dfy`, `Payments.dfy` | coupon claims and discounts, promotions, points and levels, refunds |

Each operation that changes the tables is described by a function from tables to tables and
carried out by a method of a class whose postcondition is that function. The theorems are
about the functions, so they hold of the methods. `Requests` states the outcome of every step a second
time, field by field and without those functions, and proves that the two agree.

## Conventions

- Money is an exact `real`: rounding on saving a decimal column is not modelled. Quantities and
  points are unbounded integers; a points rate is any number that is not negative.
- Order, line and cart numbers are fresh. Split orders and quick orders are stored with amounts of
  zero before their lines exist, and the modules `time`, `Decimal` and `timezone` that some files use
  without importing are taken to be there.
- `transaction.atomic()` means all or nothing. A negative quantity breaks the CHECK constraint of a
  positive-integer column and rolls the transaction back.
- A related-row query visits rows in table order; the laws about sums do not depend on it.
- A missing optional id and the id 0 are both "not given", as in the code's truth tests.
- A cancelled order holds no stock; all others do ("live" orders).

## What turned out to fail, and exactly when

- A split creates units exactly when an entry asks for more than is left of its line
  (`SplitConservesUnitsIff`, `SplitMakesUnits`), by as much as the demand that takes the line away
  exceeds what is left (`WhenTakenAway`). It is rolled back exactly when an entry asks for a
  negative number of units of a line that is still there (`SplitRefusedIff`).
- A split drops the surcharges of the lines it touches and adds the price of the units it makes;
  money is conserved exactly when these are equal (`SplitMoney`, `CheckoutSurchargeLost`). What is
  due also loses a delivery fee that was counted (`Laws.SplitDropsDeliveryFee`), and split and merge
  back restores the order table exactly when loss and gain are equal and no fee was counted
  (`Laws.SplitThenMergeRestoresOrders`, `SplitDropsExample`); units and orders together come back
  exactly when there is no loss, no gain and no counted fee (`Laws.SplitThenMergeIsIdentityIff`).
- A merge whose list names the main order deletes that order's lines and those of the orders named
  before it (`MergeKeepsLinesIff`, `MergedIntoItself`). The order of the list then matters, exactly
  for the lines that one list loses and the other does not (`MergeAgreesIff`, `MergeDependsOnOrder`).
- Replaying the inventory log with a floor at zero works, from a stock that is not negative, exactly
  when no bulk update of the SKU's shop asks for a negative stock; from a negative one the first
  request that changes the stock must also reach zero (`LogReplaysIff`, `NegativeBulkBreaksReplay`).
- Requests stay within their shop's orders (`OrdersStayInShop`), the till and the stock room within its
  stock (`StockStaysInShop`); a checkout does not (`CheckoutCrossesShops`).
- Stock is conserved up to a shortfall and a drift that are given by formula for every step; the drift
  vanishes exactly for the steps named by `DriftFree` (`DriftFreeIff`, `DriftFreeConservation`,
  `StatusDriftExample`).
- Overlapping claims can issue any number of a single coupon (`OverIssue`); the counter is right all
  along exactly when no coupon is issued between the read and the commit of another claim that
  succeeds (`CountRightIffNoOverlap`). The limit per user cannot exceed one, because the pair of user
  and coupon is unique.
- Reaching a coupon's minimum can make an order cheaper, exactly when the coupon has a minimum and a
  value there (`PayableMonotoneIff`, `LargerOrderIsCheaper`). A negative cap, which no validator
  stops, makes the discount negative (`DiscountBounds`, `NegativeCapExample`).
- A price cut that some basket is eligible for leaves the basket exactly when its rate is not between
  zero and one, or its fixed amount is negative or above the smallest eligible basket
  (`PromotionDiscountFitsIff`,
  `AmountAboveBasketExample`). A till discount is not limited by the order either (`DueAfterDiscountIff`).
- Splitting a bill can earn more points, exactly when the positive parts of the two bills exceed the
  bill stored before: a discount larger than what stays does it, and so does a demand for more than
  the line has (`SplitOrderEarnsMoreIff`, `SplitEarnsMoreExample`, `OvershootEarnsMoreExample`).
- Approving a refund checks neither the balance nor whether it was completed; the books stay right
  exactly under `Proper` (`LedgerKeptIffProper`, `ApprovedTwice`).
- A callback breaks the replay of a status log exactly when the order has a log and is not paid; in
  every run the logs replay exactly as long as none such comes (`RunLogsReplayIff`,
  `PaymentGapExample`).
- After a refused payment is retried, no callback can mark the order paid (`RetryBlocksPayment`),
  unless the order is merged into itself, which deletes its payments and inserts it again
  (`MergeFreesIff`). Without such a merge an unpaid order can still be paid, by whatever requests,
  exactly when it has at most one payment (`CanBePaidIff`).

## Model

| member | source | states |
|---|---|---|
| PosSplit.SplitResult | backend/apps/pos/services.py:108-171 | The new order has a fresh number; both orders' amounts are recalculated from their lines with their own discounts; lines of all other orders are untouched; tables stay well formed |
| PosSplit.SplitMeasures | backend/apps/pos/services.py:128-158 | Units of any goods and money on any set of orders after a split, line by line, from the original lines and the split data alone, with repeated and unknown item ids |
| Requests.SplitEffect | backend/apps/pos/services.py:108-171 | When a split is refused; otherwise the new order has the old one's shop, kind and status, is unpaid and without fee, discount and log, and the old one keeps everything but its amounts |
| PosSplit.OvershootBounds | backend/apps/pos/services.py:150-155 | What stays plus what moves is never less than the line had, and is more only for a line that is used up |
| PosSplit.FitsIffNoOvershoot | backend/apps/pos/services.py:150-155 | It is exactly what the line had if and only if no demand asks for more than is left when the loop comes to it |
| PosSplit.WhenTakenAway | backend/apps/pos/services.py:132-155 | In closed form for the demand that takes the line away: what stays, what moves, and that the surplus is that demand less what was left |
| PosSplit.WhenNotTakenAway | backend/apps/pos/services.py:132-155 | Without such a demand all demands are met and the rest stays |
| PosSplit.ModestDemandsFit | backend/apps/pos/services.py:150-155 | Explicit demands adding up to at most the line's quantity all fit |
| PosSplit.SplitRefusedIff | backend/apps/pos/services.py:128-145 | A split is rolled back if and only if it reaches a negative demand on a line that is not used up |
| PosSplit.SplitUnits | backend/apps/pos/services.py:128-158 | Over any set of orders holding both sides or neither, units grow by exactly the overshoot |
| PosSplit.SplitConservesUnitsIff | backend/apps/pos/services.py:128-158 | Units of all goods are conserved if and only if no demand exceeds what is left of its line |
| PosSplit.SplitMakesUnits | backend/apps/pos/services.py:132-155 | A concrete split that turns one unit into two |
| PosSplit.SplitMoney | backend/apps/pos/services.py:132-171 | For every split, the two subtotals add up to the old line total less the surcharges of the touched lines plus the price of the units made, and the two totals to that less the discount; when these amounts vanish, and that money is conserved if and only if they are equal |
| PosSplit.SplitDropsExample | backend/apps/pos/services.py:132-171 | An order for 17 with a surcharge of 2 and a fee of 5, moved away whole, leaves 10 to pay |
| PosMerge.MergeLinesEffect | backend/apps/pos/services.py:178-191 | For every id list, which lines the loop deletes, which it moves to the main order, and which orders remain |
| PosMerge.MergeResult | backend/apps/pos/services.py:173-196 | Final tables of a merge, including a main order that was deleted by the loop and saved again |
| Requests.MergeEffect | backend/apps/pos/services.py:173-196 | Exactly the named orders of the shop are gone; the main order keeps everything but its amounts, and its log unless the list names it |
| PosMerge.MergeAgreesIff | backend/apps/pos/services.py:173-196 | Two lists naming the same orders of the shop, the main order perhaps among them, have the same result if and only if every line is lost with both or with neither |
| PosMerge.MergeDependsOnSet | backend/apps/pos/services.py:173-196 | For a list that does not name the main order, order, repetitions, unknown ids and other shops' orders make no difference |
| PosMerge.MergeDependsOnOrder | backend/apps/pos/services.py:178-191 | For one that does, its place makes a difference as soon as the other order has a line |
| PosMerge.MergeUnion | backend/apps/pos/services.py:173-196 | The main order gets exactly the lines of the named orders beside its own, with their money; every other order and line is unchanged and no line is lost |
| PosMerge.MergeKeepsLinesIff | backend/apps/pos/services.py:178-188 | Lines are lost if and only if the list names the main order while it or an order named before it has lines |
| PosMerge.MergedIntoItself | backend/apps/pos/services.py:178-194 | An order merged into itself has no lines, no status log, and owes minus its discount |
| PosMerge.MergeValid | backend/apps/pos/services.py:173-196 | Line ids stay unique and every line keeps exactly one existing order, for every list |
| PosMerge.SplitThenMerge | backend/apps/pos/services.py:108-196 | For every split, merging the new order back restores all other lines and orders, the units plus those the split made, and what the split left of the money |
| Requests.DiscountEffect | backend/apps/pos/services.py:93-106 | The discount is the percentage of the subtotal or the amount given, and comes off the subtotal |
| Pos.DueAfterDiscountIff | backend/apps/pos/services.py:93-106 | When the amount due after a till discount is not negative, for any subtotal |
| Requests.CheckoutEffect | backend/apps/orders/serializers.py:173-336 | A checkout is refused if it comes to an item that cannot be ordered; otherwise the new order is pending and unpaid, has one line per cart line and per item under the SKU asked for and at its price, owes their sum and the fee of a delivery, and every SKU's stock falls by the units asked for under it; the cart is emptied; a missing cart leaves an empty order without log |
| OrderEffects.CheckoutRefusedIff | backend/apps/orders/serializers.py:275-302 | A checkout is rolled back if and only if it reaches items of which one names a missing product or SKU or a negative quantity |
| Requests.CartCheckoutCharges | backend/apps/orders/serializers.py:251-273 | A cart checkout charges the total the cart shows plus the fee and takes the cart's units of each SKU from stock |
| OrderEffects.CheckoutSurchargeLost | backend/apps/orders/models.py:62-65 | A split of a checked-out order drops, for every cart line it touches, the surcharge on every unit, and nothing of the items ordered directly |
| Requests.QuickOrderEffect | backend/apps/pos/services.py:14-91 | A quick order has one line for each item whose product is the shop's and whose SKU is that product's, in the quantity asked for and at its price; it is paid, owes exactly their sum, and each SKU's units leave the stock down to zero |
| Lifecycle.QuickOrderSplit | backend/apps/pos/services.py:60-171 | The two bills of any split of a quick order add up to its own plus the price of the units the split makes |
| OrderEffects.SellAllStock | backend/apps/pos/services.py:78-81 | Item by item with a floor at zero equals one subtraction of the total with one floor |
| OrderEffects.RestockedUnits | backend/apps/orders/api.py:255-259 | Restocking adds each SKU's units on the order, over all its lines |
| Requests.CancelEffect | backend/apps/orders/api.py:239-268 | Only pending, paid and confirmed orders are cancelled, and every SKU gets the units of their lines back |
| Requests.StatusEffect | backend/apps/orders/api.py:207-233 | Staff set any status of their shop's orders, with one log row |
| Requests.PaymentEffect | backend/apps/payments/services.py:181-186 | A callback sets the order to paid and leaves the log alone |
| OrderEffects.CancelUndoesCheckout | backend/apps/orders/api.py:239-268 | Checkout then cancel restores the stock of every SKU, also from below zero |
| OrderEffects.CancelAfterQuickOrder | backend/apps/orders/api.py:239-268 | Quick order then cancel leaves the larger of old stock and units sold for a SKU it sold, and the others as they were |
| OrderEffects.PutInCartCounts | backend/apps/orders/api.py:50-63 | One cart line per product and SKU, as in every reachable state; exactly that line grows; unit prices stay those of the first addition |
| Requests.AddItemEffect | backend/apps/orders/api.py:38-83 | A successful request adds its quantity to the user's line for these goods, or appends one at the catalogue's price with the surcharge requested; other goods and other users' carts stay, and a failing request adds nothing |
| Requests.ClearCartEffect | backend/apps/orders/api.py:85-90 | The user's cart exists and is empty, other carts stay |
| Requests.AdjustEffect | backend/apps/products/api.py:152-180 | An adjustment of the shop's SKU moves its stock by the quantity, down to zero at most, and logs the change asked for |
| Requests.BulkEffect | backend/apps/products/api.py:202-246 | A bulk update gives every SKU of the shop the last value it names for it and logs real changes only |
| Inventory.LowestIsMinimum | backend/apps/products/api.py:162-180 | The recursion of the closed form is the minimum over all prefixes |
| Inventory.Reflection | backend/apps/products/api.py:162-180 | Folding with a floor at zero equals the unfloored sum raised by how far it ever fell below zero |
| Inventory.ReplayWorksIff | backend/apps/products/api.py:173-180 | A log that explains the stock replays if and only if no logged stock is negative |
| Inventory.AdjustContinues | backend/apps/products/api.py:162-180 | An adjustment appends a row that explains the new stock, and keeps a stock that is not negative so |
| Inventory.BulkContinues | backend/apps/products/api.py:210-231 | A bulk update appends rows that explain the new stock of every SKU, and logs a negative stock if and only if it asks for one in effect |
| Inventory.LogReplaysIff | backend/apps/products/api.py:162-231 | In any run of adjustments and bulk updates, replay reproduces every logged stock if and only if the requests meet a condition on them alone; from a stock that is not negative, that no bulk update of the SKU's shop asks for a negative one |
| Inventory.ClampedLedger | backend/apps/products/api.py:162-231 | From a stock that is not negative, the closed form holds at every logged stock if and only if that condition holds, and then for the final stock |
| Inventory.NegativeBulkBreaksReplay | backend/apps/products/api.py:218-231 | A bulk value of -1 is stored and logged but not reproduced |
| Lifecycle.ApplyValid | backend/apps/orders/models.py:152-166 | Every step keeps keys unique, foreign keys resolved and cart lines unique per product and SKU, and leaves the catalogue alone |
| Requests.OrdersStayInShop | backend/apps/pos/api.py:87-140 | No request of one shop changes an order of another, nor what its lines add up to |
| Requests.StockStaysInShop | backend/apps/products/api.py:146-149 | Neither the till's sales nor the stock room touch another shop's stock |
| Requests.CheckoutCrossesShops | backend/apps/orders/serializers.py:275-282 | A checkout does: it sells another shop's SKU on an order of its own |
| Laws.SplitCoherent | backend/apps/pos/services.py:160-171 | A split keeps every order's stored amounts in line with its lines, and its own order's total without the fee |
| Laws.MergeCoherent | backend/apps/pos/services.py:193-194 | So does a merge for the main order, for every id list |
| Laws.ApplyCoherent | backend/apps/orders/serializers.py:319-336 | So does every step, where only a checkout starts counting the fee and only a discount, split or merge of the order stops it |
| Laws.RunCoherent | backend/apps/orders/serializers.py:319-336 | In every reachable state each subtotal is the sum of the order's lines and each total is subtotal less discount, plus the fee exactly for the orders that still count it |
| Laws.SplitDropsDeliveryFee | backend/apps/pos/services.py:166-171 | There a split takes a counted fee and the touched surcharges off what is due and adds the price of the units made; what is due stays the same if and only if these cancel out |
| Laws.SplitThenMergeRestoresOrders | backend/apps/pos/services.py:166-171 | There split and merge back gives the order table back if and only if the surcharges lost equal the money made and no fee was counted |
| Laws.SplitThenMergeIsIdentityIff | backend/apps/pos/services.py:108-196 | There units of all goods and the order table both come back if and only if no demand exceeds what is left, no surcharge is lost and no fee was counted |
| Laws.CancelLedger | backend/apps/orders/api.py:250-259 | Cancelling moves units from orders to stock, one for one |
| Laws.SplitLedger | backend/apps/pos/services.py:128-158 | A split of a live order changes stock plus live units by its excess |
| Laws.MergeLedger | backend/apps/pos/services.py:178-191 | A merge changes them by the cancelled units it revives less the live units it buries or deletes |
| Laws.ApplyLedger | backend/apps/pos/services.py:78-81 | Every step changes stock plus live units by logged adjustments, shortfall and drift, each given by a formula over the state before |
| Laws.StockConservation | backend/apps/orders/serializers.py:267-302 | The same for every run |
| Laws.DriftFreeIff | backend/apps/orders/api.py:207-233 | A step drifts for no SKU if and only if its demands for goods with a SKU fit and it moves no such goods across the cancelled boundary |
| Laws.DriftFreeConservation | backend/apps/orders/api.py:244-259 | All steps of a run are of that kind if and only if at every point of it, for every SKU, the ledger has changed by the shortfall alone |
| Laws.StatusDriftExample | backend/apps/orders/api.py:214-233 | A live order of one unit that staff set to cancelled: the unit leaves the ledger and the stock stays |
| StatusLog.RunLogsFollow | backend/apps/orders/api.py:217-233 | In every run consecutive log rows join up or start from "paid", and the status is that of the last row or "paid" |
| StatusLog.StepReplaysIff | backend/apps/orders/api.py:217-233 | A step keeps every log replaying to its status if and only if it is not a callback for an order with a log that is not paid |
| StatusLog.RunLogsReplayIff | backend/apps/payments/services.py:181-186 | At every point of a run the logs replay exactly to the statuses if and only if no step of the run is such a callback |
| StatusLog.CheckoutLogsReplay | backend/apps/orders/serializers.py:240-247 | In such runs the log of an order from a checkout replays from pending |
| StatusLog.PaymentGapIff | backend/apps/payments/services.py:181-186 | A callback breaks the replay if and only if the order was not already paid |
| StatusLog.PaymentGapExample | backend/apps/payments/services.py:181-186 | A checked-out order paid by a callback is paid while its log ends in pending |
| ShopService.Shop.SumOfItems | backend/apps/pos/services.py:168 | The loop returns the sum of the order's line totals |
| ShopService.Shop.RecalculateOrderAmount | backend/apps/pos/services.py:166-171 | Subtotal from the lines, total less discount |
| ShopService.Shop.ApplyDiscount | backend/apps/pos/services.py:93-106 | The discount by type, and the new total |
| ShopService.Shop.SplitItem | backend/apps/pos/services.py:128-158 | One entry: the new line is inserted, the old one shrunk or deleted, or nothing changes |
| ShopService.Shop.SplitOrder | backend/apps/pos/services.py:108-164 | The loop does what Pos.Split says, and a violation restores the tables |
| ShopService.Shop.MoveItems | backend/apps/pos/services.py:182-185 | Every item of the merged order is re-parented in place |
| ShopService.Shop.MergeOrders | backend/apps/pos/services.py:173-196 | The loop does what Pos.Merge says, for every id list |
| ShopService.Shop.CreateQuickItems | backend/apps/pos/services.py:38-84 | The loop sells exactly the items that are found and adds up their prices |
| ShopService.Shop.CreateQuickOrder | backend/apps/pos/services.py:14-91 | A paid order with those lines and that subtotal |
| ShopService.Shop.CreateItemsFromCart | backend/apps/orders/serializers.py:251-273 | The cart's lines are sold in order, then the cart is emptied |
| ShopService.Shop.CreateItemsFromData | backend/apps/orders/serializers.py:275-302 | The items are sold in order, or one of them raises |
| ShopService.Shop.CalculateOrderTotals | backend/apps/orders/serializers.py:319-336 | Subtotal, fee of a delivery, and total |
| ShopService.Shop.CreateOrder | backend/apps/orders/serializers.py:173-249 | The whole checkout, with its rollback and the missing-cart return |
| ShopService.Shop.AddToCart | backend/apps/orders/api.py:38-83 | Get or create the cart and the line; when the request fails |
| ShopService.Shop.ClearCart | backend/apps/orders/api.py:85-90 | The cart exists and is empty |
| ShopService.Shop.UpdateStatus | backend/apps/orders/api.py:214-233 | New status and one log row from the old status |
| ShopService.Shop.CancelOrder | backend/apps/orders/api.py:240-270 | Only pending, paid and confirmed orders; restocking loop and log row |
| ShopService.Shop.PaymentCallback | backend/apps/payments/services.py:181-186 | The order is paid, without a log row |
| ShopService.Shop.AdjustStock | backend/apps/products/api.py:152-184 | Floored stock, unfloored logged change |
| ShopService.Shop.BulkStockUpdate | backend/apps/products/api.py:202-246 | The loop overwrites stock, logs real changes only, and answers entry by entry |
| ShopService.Shop.Handle | backend/apps/orders/api.py:207-270 | Any request does to the tables what the step of the state machine says, from finding the order in its shop to rolling back |
| Coupons.ClaimsSafe | backend/apps/promotions/services.py:16-49 | Under every interleaving of reads and commits: used at most total and at most issued, and no user holds two |
| Coupons.CountRightIffNoOverlap | backend/apps/promotions/services.py:16-49 | Issued less counted stays the same all along a run if and only if no coupon is issued between the read and the commit of another claim that succeeds |
| Coupons.NoOverlapNoOverIssue | backend/apps/promotions/services.py:16-49 | Without such an overlap issued stays equal to counted and within the quantity |
| Coupons.OverIssue | backend/apps/promotions/services.py:16-49 | Any number of users who all read first get a coupon, and one is counted |
| Coupons.IssuedWithinTerms | backend/apps/promotions/services.py:16-49 | Every coupon goes to the user of a request that read it while it was active, in its period, not used up as counted and not held up to the limit |
| Coupons.ClaimDesk.BeginClaim | backend/apps/promotions/services.py:18-36 | The checks, and the count that the commit will use |
| Coupons.ClaimDesk.CommitClaim | backend/apps/promotions/services.py:38-49 | The row is created unless the user has one, and the stale count plus one is written |
| Coupons.ClaimDesk.ClaimCoupon | backend/apps/promotions/services.py:16-52 | An uninterrupted claim succeeds exactly for an available coupon that the user does not hold |
| Coupons.CheckApplyScope | backend/apps/promotions/services.py:82-97 | The loop decides whether some item is in scope |
| Coupons.DiscountIsLeast | backend/apps/promotions/services.py:54-80 | Where the coupon applies, the discount is the least of the percentage, the amount and the cap, or of the fixed value and the amount |
| Coupons.DiscountBounds | backend/apps/promotions/services.py:54-80 | A discount is at most the amount; it is never negative unless the coupon applies with a negative cap, and never falls as the amount grows unless such a coupon has a minimum, both with the exact condition |
| Coupons.NegativeCapExample | backend/apps/promotions/services.py:71-74 | Ten percent with a cap of -5 makes an order for 100 cost 105 |
| Coupons.PayableMonotone | backend/apps/promotions/services.py:54-80 | Above the minimum a larger order never costs less, for any cap |
| Coupons.PayableMonotoneIff | backend/apps/promotions/services.py:59-61 | Over all amounts that holds if and only if the coupon does not apply, has no minimum or no value, is of a type without discount, or has a negative cap |
| Coupons.LargerOrderIsCheaper | backend/apps/promotions/services.py:59-61 | 50 off from 100 on: 99 costs 99 and 100 costs 50 |
| Promotions.CheckPromotionCondition | backend/apps/promotions/services.py:158-189 | The loops decide eligibility |
| Promotions.GetApplicableAmount | backend/apps/promotions/services.py:202-215 | The loop adds up the items in scope, or all of them |
| Promotions.OneItemEligibleIff | backend/apps/promotions/services.py:158-189 | When a basket of one item meets the amount, the quantity and the scope |
| Promotions.EligibleHasAmount | backend/apps/promotions/services.py:158-215 | A scoped promotion that passes the check has a positive amount |
| Promotions.AmountIffMatch | backend/apps/promotions/services.py:202-215 | The amount is positive if and only if an item matches |
| Promotions.MoreItemsStayEligible | backend/apps/promotions/services.py:158-215 | Adding items keeps eligibility and never lowers the amount |
| Promotions.ApplicableConcat | backend/apps/promotions/services.py:202-215 | Amounts and conditions add up over baskets |
| Promotions.ApplicableBounded | backend/apps/promotions/services.py:202-215 | The amount is at most the basket, and equal exactly when everything that costs is covered |
| Promotions.PermutedBasket | backend/apps/promotions/services.py:158-215 | The order of the items makes no difference |
| Promotions.BrokenLine | backend/apps/promotions/services.py:158-215 | Neither does breaking a line in two |
| Promotions.RatesAddUp | backend/apps/promotions/services.py:191-196 | A rate of one takes all it applies to; rates add up, and so do baskets |
| Promotions.WithoutRate | backend/apps/promotions/services.py:197-200 | Without a rate the fixed amount is taken, and other kinds take nothing |
| Promotions.PromotionDiscountFitsIff | backend/apps/promotions/services.py:191-200 | A price cut stays between nothing and the basket for every eligible basket if and only if its rate is between zero and one, or without a rate its amount is between zero and the smallest eligible basket, or no basket is eligible |
| Promotions.AmountAboveBasketExample | backend/apps/promotions/services.py:191-200 | A cut by 20 applies to a basket worth 10 |
| Points.BestIsGreatestReached | backend/apps/users/services.py:65-77 | The level wanted is a reached one with the greatest threshold |
| Points.PointsService.CheckMembershipUpgrade | backend/apps/users/services.py:60-81 | The loop with its early break finds that level in a sorted list |
| Points.PointsService.EarnPoints | backend/apps/users/services.py:16-36 | New balances, log row and level |
| Points.PointsService.ConsumePoints | backend/apps/users/services.py:38-58 | New balances and log row, or an error and no change |
| Points.PointsService.ProcessOrderPoints | backend/apps/users/services.py:83-106 | Truncated points of an order are booked when positive |
| Points.PointsBooked | backend/apps/users/services.py:16-58 | A run earns and spends exactly what its requests ask for, refusing those beyond the balance, and logs one row with its signed points and balance for each of the others |
| Points.PointsLedger | backend/apps/users/services.py:16-58 | In every run total less available less used is constant, each row's balance is the prefix sum, and the balance is never negative |
| Points.LevelIsPathIndependent | backend/apps/users/services.py:16-81 | The level after any run depends only on the final total |
| Points.LevelNeverDrops | backend/apps/users/services.py:60-81 | Once a configured level is reached the threshold never falls |
| Points.OrderPointsWhole | backend/apps/users/services.py:93-96 | An order earns the whole points of its total at the rate, and none below zero |
| Points.CutsNeverEarnMore | backend/apps/users/services.py:93-103 | Cutting a bill into k parts that are not negative earns at most as much, and less by at most k - 1 |
| Points.TwoBillsEarnMoreIff | backend/apps/users/services.py:93-103 | Two bills in place of any one earn no more at any rate if and only if their positive parts add up to at most its positive part |
| Points.OneBillEarnsMoreIff | backend/apps/users/services.py:93-103 | The one bill earns at most one point more than the two, at any rate, if and only if its positive part is at most theirs together |
| Points.SplitEarnsMoreIff | backend/apps/users/services.py:93-103 | For two parts that add up to the bill: if and only if they do not have opposite signs |
| Points.SplitOrderEarnsMoreIff | backend/apps/pos/services.py:160-171 | The same for every split and every stored total, in terms of what stays less the discount and what moves |
| Points.SplitOrderEarnsLessIff | backend/apps/pos/services.py:160-171 | A split costs at most one point, at any rate, if and only if the positive parts of its bills reach the total stored before |
| Points.SplitEarnsMoreExample | backend/apps/pos/services.py:108-171 | An order for 100 with a discount of 50, moved away whole, becomes bills of -50 and 100 and earns 100 points instead of 50 |
| Points.OvershootEarnsMoreExample | backend/apps/pos/services.py:108-171 | An order for one unit at 10 of which two are asked for becomes bills of 0 and 20 and earns twice as much |
| Payments.LedgerKeptIffProper | backend/apps/payments/api.py:90-215 | Each step keeps refunded equal to the completed requests, within the amount, and "refunded" exactly at the amount, if and only if it is proper |
| Payments.LedgerKeptByRunIff | backend/apps/payments/api.py:90-215 | The same for every run |
| Payments.RefundsBooked | backend/apps/payments/api.py:90-215 | In every run exactly what the gateway pays out is booked: refunds within the balance and approved requests whatever the balance |
| Payments.ApprovedTwice | backend/apps/payments/api.py:162-191 | Approving a completed request of a fully refunded transaction refunds more than was paid |
| Payments.RetryIsSafe | backend/apps/payments/api.py:174-199 | Any number of gateway failures move no money and change nothing about a later success |
| Payments.Transaction.Refund | backend/apps/payments/api.py:91-142 | When a refund goes through and what it books |
| Payments.Transaction.ApproveRequest | backend/apps/payments/api.py:162-199 | Approved, then completed and booked if the gateway accepts |
| Payments.Transaction.RejectRequest | backend/apps/payments/api.py:201-209 | Only the request's status changes |
| OrderPayments.PaymentDesk.Create | backend/apps/payments/api.py:41-86 | A row for a pending order over its total, failed if the gateway refuses |
| OrderPayments.CreateEffect | backend/apps/payments/api.py:49-86 | A pending order gets one more row over the total due then |
| OrderPayments.CallbackEffect | backend/apps/payments/services.py:172-188 | A callback that finds exactly one row sets that row and the order to paid, and nothing else |
| OrderPayments.StillResolve | backend/apps/payments/models.py:62 | Every transaction belongs to an existing order, after every step |
| OrderPayments.FreshOrderCanBePaid | backend/apps/payments/api.py:49-86 | An order that a request creates unpaid can be paid |
| OrderPayments.SplitBillCanBePaid | backend/apps/pos/services.py:114-124 | The new bill of a split is unpaid and can be paid, also when the order was paid, and the old one's flag stays |
| OrderPayments.PaymentDesk.ProcessResult | backend/apps/payments/services.py:165-191 | Exactly one row with the trade number pays the order |
| OrderPayments.PaymentDesk.Handle | backend/apps/payments/models.py:62 | Any other request is carried out by the shop, and the transactions of deleted orders go |
| OrderPayments.RequestKeepsFlags | backend/apps/pos/services.py:173-196 | No other request sets or clears the payment flag of an order; it is kept, or the order is deleted for good, except that a main order merged into itself is there again with its flag |
| OrderPayments.SecondPaymentBlocks | backend/apps/payments/services.py:172-191 | With two payments for an unpaid order, no requests of any kind set its payment flag, unless one merges the order into itself |
| OrderPayments.RetryBlocksPayment | backend/apps/payments/api.py:56-86 | A refused payment and its retry are such a pair |
| OrderPayments.OnePaymentPays | backend/apps/payments/services.py:172-188 | One payment and its callback pay the order, also when the gateway had refused |
| OrderPayments.CanBePaidIff | backend/apps/payments/services.py:172-191 | Without merging it into itself, some continuation pays an unpaid order if and only if it has at most one payment |
| OrderPayments.MergeFreesIff | backend/apps/payments/models.py:62 | A merge makes an unpaid order with two payments payable again if and only if it merges the order into itself, in the order's own shop |

## Left out

- Calls to payment gateways, callback parsing, QR codes and the choice of payment page: only success or failure of a refund or payment and the state change of a callback are modelled.
- Printing, barcodes, table management, statistics, reports, exports, permissions, accounts, shop settings and the front end.
- Generic create, update and delete of rows and the admin pages: the steps are the named actions. A refund request is the one row that is simply created (`Ask`).
- Customer data, images, names, notes and timestamps on orders and lines: copied by the code, without influence on the rest. The checks of address and pick-up time before a checkout are not modelled.
- Rounding when a decimal is saved, and the maximum number of digits of a column.
- Surcharges of attribute options are one number per cart line, taken from the request; unknown option ids are not modelled.
- Two carts of one user: the model has at most one cart per user, as `get_or_create` keeps it when requests do not overlap.
- Overlapping requests are modelled for coupon claims only; elsewhere a request is one step.
- Refund requests are modelled beside a transaction that is not deleted with its order.
- Coupon rules that issue coupons automatically, membership discounts and recharges.
