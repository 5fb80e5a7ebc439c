# Opinion-trading engine: admission, matching and settlement

This project models the matching engine of a binary-outcome ("yes"/"no")
prediction market in Dafny. In this market a "yes" price and the matching "no"
price add up to 10 rupees, and balances are kept in paise. The model covers
three functions of the engine's helper file:

- `initiateSellOrder` admits a resting order. A buy of one outcome at `p` is
  stored as a pseudo sell of the other outcome at `10 - p`, and `q * p * 100`
  paise are locked from the buyer's currency. An exit of owned contracts rests
  as itself and locks those contracts. The order is appended to the FIFO
  queue of its price level.
- `matchOrder` walks the queue of one price level with a `for…in` loop over
  its keys, fills resting orders, settles every fill and returns the unfilled
  remainder. The code's loop does not keep to head-first order (see Findings).
  The corrected model, `Engine.MatchOrder`, fills the queue head first.
- A buyer of an outcome meets the orders resting on that outcome. A seller
  meets the orders resting on the other outcome (`Settlement.MatchedSide`).
  Those are pseudo sells, which are the resting buys of the seller's outcome,
  and the settlement credits their makers with that outcome. That side also
  holds exits of the other outcome. The settlement treats their makers as
  delivering the seller's outcome, as covered under "## Left out".
- `updateBalances` settles one fill: first the maker's records, then the
  taker's.

The engine's global maps (currency balances, contract balances, order book)
are one immutable `Engine` value, and every operation is a pure function of it.
The engine reads records without checking that they exist. Where a record is
missing, the code raises a TypeError and keeps every mutation made before the
throw. The model expresses this as `Step.Thrown(fault, state)`, where `state`
is the state as it stood when the exception left the function. Random order
ids are drawn from a counter (`Engine.nextId`). The invariant `Engine.Inv`
says two things: every level's aggregate equals the sum of its queue, and
every id in the book is below the counter.

Modules, one per file:
- `Types`: outcomes, prices, costs, faults.
- `Ledger`: currency and contract records.
- `Book`: price levels.
- `Matching`: the corrected fill loop.
- `Settlement`: updateBalances and runs of fills.
- `Engine`: the two entry points.
- `AsWritten`: the book effects of the fill loop as written (see Findings).
- `Scenarios`: worked trades.

## Model

| member | source | states |
|---|---|---|
| Engine.TransformIsComplement | engine/src/helper/index.ts:21-24 | A buy rests at the other outcome and at the price that adds up to 10 with its own. Complementing twice gives back the original buy. A price in 1..9 stays in 1..9. An exit rests where it was placed. |
| Engine.Reserve | engine/src/helper/index.ts:26-36 | Succeeds exactly when the currency record (buy) or the contract record (exit) exists. A buy moves `q * p * 100` paise from available to locked. An exit moves `q` contracts from owned to locked. No user's total currency or total contracts change, and every other record is untouched. |
| Book.Insert | engine/src/helper/index.ts:38-50 | Succeeds exactly when the symbol and its outcome side are in the book. The order goes at the back of the level's queue, and a missing level is created. The aggregate grows by the order's quantity. Every other level is unchanged. |
| Book.InsertKeepsBookOk | engine/src/helper/index.ts:42-50 | Appending an order keeps every level's aggregate equal to the sum of its queue. |
| Book.InsertKeepsIdsBelow | engine/src/helper/index.ts:44-48 | An id drawn from the counter differs from every id already in the book. After the insert, all ids are below the advanced counter. |
| Engine.InitiateSellOrder | engine/src/helper/index.ts:13-52 | Completes exactly when the lock's record exists and the book has the symbol and the transformed outcome side. A missing lock record raises with nothing changed. A missing book side raises after the lock has been applied. On success the lock is applied, the new order with a fresh id is last in the queue at the transformed position, the aggregate grows by `q`, and other levels are unchanged. |
| Engine.AdmissionKeepsInv | engine/src/helper/index.ts:13-52 | Admission, whether it completes or raises, keeps every aggregate equal to its queue and every id below the counter. |
| Engine.MatchedBuyGetsItsOutcome | engine/src/helper/index.ts:170-171 | A resting buy of `o` sits on the side that a buyer of the other outcome or a seller of `o` is matched against, and either way its maker is credited `o`. |
| Engine.PseudoBuyLockIsReleasedByFill | engine/src/helper/index.ts:165-187 | A fill of a resting buy of `o` at `p` happens at its level price `10 - p`. The fill releases the cost at `10 - (10 - p)`, so the buyer's locked currency returns to its level before the order. The buyer also gains `q` contracts of `o`. |
| Matching.Match | engine/src/helper/index.ts:84-140 | The quantity filled equals `required` minus the remainder. The level's aggregate and its queue's sum both fall by exactly that quantity, so a consistent level stays consistent. |
| Matching.MatchExhaustsInOrder | engine/src/helper/index.ts:116-139 | When the queue is used up, every resting order was filled for its whole quantity, oldest first, one fill per order. |
| Matching.MatchStopsInside | engine/src/helper/index.ts:85-115 | When part of the queue survives: the remainder is 0, the oldest k orders were filled whole, and order k was filled partially. Order k stays at the head with a positive reduced quantity, and the orders behind it are untouched. |
| Matching.MatchRemainderIsShortfall | engine/src/helper/index.ts:74-141 | For a non-negative requirement and queue, the returned remainder is `max(0, required - queued)`. It lies in `[0, required]` and is 0 exactly when the queue held at least the requirement. |
| Matching.MatchKeepsIds | engine/src/helper/index.ts:88-138 | Matching only reduces or removes orders, so it introduces no id. |
| Engine.MatchOrder | engine/src/helper/index.ts:64-141 | The matched level is on the side the taker's type selects. A missing level raises with nothing changed. Otherwise the matched level's aggregate and queue sum fall by the filled quantity, every other level is unchanged, and no id is drawn. |
| Engine.MatchOrderRemainder | engine/src/helper/index.ts:113-141 | The remainder matchOrder returns lies in `[0, required]` and is 0 exactly when the level held at least the requirement. |
| Engine.MatchOrderPaysTaker | engine/src/helper/index.ts:101-132 | A taker who owns no order in the queue pays (buying) or receives (selling) `filled * price * 100` paise over the whole match, where `filled = required - remaining`. |
| Engine.MatchOrderDeliversToTaker | engine/src/helper/index.ts:101-132 | A taker who owns no order in the queue receives (buying) or gives up (selling) exactly `required - remaining` contracts of its outcome over the whole match. |
| Engine.MatchOrderLeavesOthers | engine/src/helper/index.ts:101-132 | A completed match leaves every currency and contract record alone for each user who is neither the taker nor the owner of an order in the matched queue. |
| Engine.SettledStepPaysTaker | engine/src/helper/index.ts:101-132 | Any step whose remainder and ledger are those of the level match and the settlement of its fills pays the taker the price of `required - remaining` contracts. |
| Engine.MatchPaysTaker | engine/src/helper/index.ts:101-132 | The taker's currency change, stated on the fills of a level match. |
| Engine.MakersOfMatch | engine/src/helper/index.ts:108-130 | Every fill names the owner of an order in the matched queue. |
| Engine.MatchOrderKeepsInv | engine/src/helper/index.ts:64-141 | Matching, whether it completes or raises, keeps every aggregate equal to its queue and every id below the counter. |
| Ledger.AdjustCash | engine/src/helper/index.ts:168 | Fails exactly when the user has no currency record, and then changes nothing. Otherwise it adds the given deltas to the available and locked currency and leaves every other user alone. |
| Ledger.AdjustHolding | engine/src/helper/index.ts:190 | Fails exactly when the contract record is missing, and then changes nothing. Otherwise it adds the given deltas to owned and locked contracts and leaves every other record alone. |
| Ledger.CreditHolding | engine/src/helper/index.ts:173-187 | Fails exactly when the user has no contract map at all. Otherwise it adds `q` owned contracts, creating the record with nothing locked when absent, and leaves every other record alone. |
| Settlement.SettleMaker | engine/src/helper/index.ts:165-191 | A resting buy releases `q * (10 - price) * 100` locked paise. Its owned contracts of the credited outcome grow by `q` and its locked contracts are kept, with a new record starting at locked 0. That outcome is the flip of the taker's when the taker buys, and the taker's own when the taker sells. A resting exit is paid `q * price * 100` available paise and delivers `q` locked contracts. The call completes exactly when the records it dereferences exist, raises only with one of those faults, and leaves other users' currency unchanged. |
| Settlement.SettleTaker | engine/src/helper/index.ts:193-214 | A buyer pays `q * price * 100` and is credited `q` contracts, with the record created when absent. A seller is paid the same and gives up `q` owned contracts. Locked amounts are untouched, and the call completes exactly when the records exist. |
| Settlement.UpdateBalances | engine/src/helper/index.ts:155-215 | For distinct maker and taker, completes exactly when both sides' records exist. Each user's currency changes by the maker's delta (if the maker), plus the taker's delta (if the taker), plus nothing else. |
| Settlement.UpdateBalancesLeavesOthers | engine/src/helper/index.ts:155-215 | One fill changes no currency or contract record of anybody but its maker and its taker. |
| Settlement.UpdateBalancesDeliversToTaker | engine/src/helper/index.ts:193-214 | One fill against somebody else's order moves exactly `q` contracts of the taker's outcome to a buying taker, or from a selling one. |
| Settlement.ExitFillConserves | engine/src/helper/index.ts:188-199 | A taker buy against a resting exit moves currency from taker to maker and contracts from maker to taker. Their summed currency and summed contracts are unchanged, and no other user's currency changes. |
| Settlement.PairFillIsCollateralised | engine/src/helper/index.ts:167-199 | A taker buy against a resting pseudo buy gives each party `q` contracts of opposite outcomes. Together they pay exactly `q * 10 * 100` paise, whatever the price. |
| Settlement.SellerNetAgainstBuy | engine/src/helper/index.ts:166-212 | For a seller filled against a resting buy, the maker's lock is released at `10 - price` while the seller is paid at `price`. Together they come to `q * (2 * price - 10) * 100`, which is 0 exactly when `q` is 0 or the price is 5. |
| Settlement.SellerNetAgainstExit | engine/src/helper/index.ts:188-212 | For a seller filled against a resting exit, both sides are paid at `price`, `2 * q * price * 100` in all. That is 0 exactly when `q` or the price is 0. |
| Settlement.SellerFillNet | engine/src/helper/index.ts:155-215 | One completed seller fill changes the summed currency of its distinct maker and taker by exactly that net, for every price and both maker types. |
| Settlement.SellerAgainstExitWithoutRecord | engine/src/helper/index.ts:188-191 | A resting exit hit by a seller is settled against its maker's record of the seller's outcome. A maker with a currency record but none of that outcome raises `NoHolding` for it, after being paid `q * price * 100`, and no contract record changes. |
| Settlement.TakerFlowIsPriceOfFilled | engine/src/helper/index.ts:195 | Paying fill by fill comes to the price of the total filled quantity. |
| Settlement.SettleAllPaysTaker | engine/src/helper/index.ts:101-132 | Settling a run of fills none of which is the taker's own changes the taker's currency by the price of the total filled quantity. |
| Settlement.SettleAllLeavesOthers | engine/src/helper/index.ts:101-132 | Settling a run of fills leaves every record of a user who is neither the taker nor a maker of the run. |
| Settlement.SettleAllDeliversToTaker | engine/src/helper/index.ts:101-132 | Over a run of fills none of which is the taker's own, the taker's contracts of its outcome change by the total filled quantity: up when buying, down when selling. |
| AsWritten.Loop | engine/src/helper/index.ts:84-140 | The written loop's effect on the book, taking the handed-in level to be the book's own level on the matched side. The filled quantity equals the requirement minus the remainder. Every unit filled is taken off the books twice: off the matched level for a buyer, and across the matched level and the level on the seller's outcome for a seller. |
| AsWritten.MatchAsWritten | engine/src/helper/index.ts:73-141 | The written matchOrder's book effects and fills, with the same facts as the loop stated on the book's totals. |
| AsWritten.DoubleDecrementWitness | engine/src/helper/index.ts:88-98 | Setup: a level of 5 in one order, hit by a buying taker for 2. As written, the aggregate ends at 1 while the queue holds 3. The corrected match keeps them equal. |
| AsWritten.SkippedOrderWitness | engine/src/helper/index.ts:84-138 | Setup: orders of 1, 2 and 3 and a requirement of 6. As written, 2 remain unfilled and the order of 2 disappears unsettled, leaving an order of 0 behind. The corrected match fills all three in order. |
| AsWritten.SellerShiftWitness | engine/src/helper/index.ts:117-138 | A seller fills a resting buy whole. As written, the buy stays queued with quantity 0. Somebody else's exit on the seller's own side is shifted out unfilled, and that level's total drops. |
| AsWritten.SellerRaiseWitness | engine/src/helper/index.ts:117-120 | The same seller with no level on its own side at that price: the written code raises on that book access. |
| AsWritten.SellerCorrectedWitness | engine/src/helper/index.ts:64-141 | On the seller's input, the corrected match removes the filled buy and leaves the exit's level as it was. |
| Scenarios.ExitRests | engine/src/helper/index.ts:33-50 | An exit of 10 "yes" at 6 rests as a level of 10 and locks all 10 contracts. |
| Scenarios.SettleFourFromExit | engine/src/helper/index.ts:188-210 | A fill of 4 at 6 against that exit pays the exit's owner 2400 paise and unlocks and delivers 4 contracts. The buyer pays 2400 and receives 4 contracts. |
| Scenarios.BuyFromExit | engine/src/helper/index.ts:84-115 | Buying 4 from the resting exit of 10 leaves 6 resting at the head and the ledger as above. |
| Scenarios.ExitThenBuy | engine/src/helper/index.ts:13-141 | The two steps from the start state in sequence. |
| Scenarios.BuyRestsAsComplement | engine/src/helper/index.ts:21-50 | A buy of 3 "no" at 3 rests as a pseudo sell of "yes" at 7 and locks 900 paise. |
| Scenarios.ExactBoundary | engine/src/helper/index.ts:84-140 | A requirement used up exactly at an order boundary removes that order, returns 0, and leaves the next order's quantity unchanged. That next order still gets a zero fill. |
| Scenarios.SellerHitsExitOfOtherOutcome | engine/src/helper/index.ts:188-191 | M's exit of 1 "no" rests at 6, and M holds no "yes". A seller of 1 "yes" at 6 is matched against that exit. The match raises `NoHolding("M", "Eth", Yes)` with M already paid 600 paise. |

## Left out

- publishOrderbook (the Redis publish after admission) is I/O and is not modelled.
- uuidv4 is replaced by the counter `Engine.nextId`. Only freshness of ids is modelled, not their form.
- The websocket fan-out service and the gateway's Redis client and balance router are callers and transport outside the engine core, so they are not part of this model.
- Prices, quantities and balances are unbounded integers. The engine checks neither their range nor their sign, so the model invents no such errors either. `ValidPrice` is used only in statements about the transform.
- Engine.MatchOrder: the level to match is looked up in the book at (symbol, matched side, price). The engine's caller instead hands in a level object, and the code that chooses it is not part of this model. The matched side is the one the settlement's crediting implies (index.ts:170-171), and the corrected match takes each fill off that level once.
- Engine.MatchOrder: an exit of the other outcome on a seller's matched side is settled as the code does it (index.ts:190). Its maker's locked contracts of the seller's outcome are reduced. A maker without that record raises `NoHolding`, and the exit's own locked contracts are never released (`Scenarios.SellerHitsExitOfOtherOutcome`). The model does not correct this, because the intended pairing of sellers with exits is not evident from the code.
- Engine.MatchOrder: when a settlement raises in the middle of a match, the model's book is the fully matched level. It is not the level as it stood at the raise. The ledger at a raise is exact.
- AsWritten.Loop: it models the book effects and the fills of the written loop only. Settling those fills, and the raises settlement can cause, are left to `Settlement` and are not replayed here. The handed-in level is assumed to be the book's own level on the matched side.
- Settlement.SettleAll: it carries no contract of its own. Its properties are stated by the Settlement.SettleAll… lemmas and the Engine.MatchOrder… lemmas.
- Settlement.UpdateBalances: a fill with a selling taker does not conserve currency, and the model keeps the code's amounts. Against a resting buy, the maker's lock is released at `10 - price` while the seller is paid at `price`. Against a resting exit, both sides are paid at `price`. `Settlement.SellerFillNet` states the net. What the engine should pay instead is not evident from the code, so no corrected settlement is modelled.
- Settlement.UpdateBalances: when maker and taker are the same user, success is not characterised as an if-and-only-if. The per-user currency change is still stated.
- Matching.Match: after a whole-order fill the code's loop keeps going even when nothing more is required. The next resting order then receives a settled fill of zero quantity. A head-first FIFO match would stop once nothing more is required. The model follows the code, since the difference is only a zero-quantity settlement; `Scenarios.ExactBoundary` shows it.

## Findings

| source | as written | input that shows it | evidently intended | confidence | as-written member | corrected member |
|---|---|---|---|---|---|---|
| engine/src/helper/index.ts:88-98, 117-120 | Each fill decrements both the handed-in level's total and a book level's total. For a buyer both are the matched level, so its total falls twice. For a seller's partial fill both are the matched level too. | Level of 5 holding one order of 5, buying taker for 2: total becomes 1 while the queue holds 3. | The aggregate falls once per fill and stays equal to the queue's sum. | medium, not executed; depends on the caller handing in the book's own level | AsWritten.DoubleDecrementWitness | Matching.Match |
| engine/src/helper/index.ts:84, 138 | `for…in` fixes the keys at the start, while each whole fill shifts the queue by one, so the key and the queue drift apart. | Orders of 1, 2 and 3, requirement 6: the orders of 1 and 3 are filled, the order of 2 is removed unsettled, and 2 remain. | Head-first FIFO: the oldest order is always the next to fill. | medium, not executed; depends on the caller handing in the book's own level | AsWritten.SkippedOrderWitness | Matching.MatchRemainderIsShortfall |
| engine/src/helper/index.ts:92-94, 117-120, 138, 170-171 | For a seller, the partial fill decrements the level on the other outcome (92-94). That is where the resting buys it meets, and credits with the seller's outcome (170-171), rest. A whole fill instead decrements the level on the seller's own outcome and shifts that queue (119-120, 138). | Resting buy of 2 "yes" (a pseudo sell of "no" at 6), an exit of 5 "yes" at 6, seller of 2 "yes" at 6. The buy stays queued at 0, and the exit is removed unfilled while the "yes" total drops to 3. With no "yes" level at 6, the call raises. | A whole fill removes the filled order from the level it was matched on and leaves every other level alone. | low, not executed; depends on which level the caller hands in for a seller | AsWritten.SellerShiftWitness | Engine.MatchOrder |
