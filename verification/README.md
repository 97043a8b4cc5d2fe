# Stock-ledger generator, review sampling and live checks: a verified model

The repository builds a synthetic SAP dataset for spare-parts stock, reviews how spares are matched, and
checks live feeds. This project models the parts of it that carry state or arithmetic and proves what they
keep, for every input and for everything that can be drawn at random.

* **Stock ledger** (`Ledger`, `Tables`, `Balances`, `Calendar`, `Rounding`, `Planning`, `Additions`, `StockWalk`, `Histories`,
  `OarChains`, `OnDemandStock`, `Repairs`, `BatchStock`, `Closing`, `Check`, `Consistency`, `KeyFields`, `Generator`, `Run`): `data-generator/generate.py`
  walks each material-plant through 24 months of consumption and replenishment, then runs reservation-to-issue
  chains for materials ordered on demand and repair cases for repairable ones, all writing into the same
  tables. `check` is an executable specification of those tables. The main result is `Run.Generate`: from any
  material-plants with distinct keys, whatever is drawn, the modelled checks report nothing, stock is conserved,
  the rows tell every plant's whole window (each month's issue, each order at the reorder point with its documents,
  each delivery due) or its chains, and its repair case if it has one; every on-demand reservation is issued at
  most what was received and that at most what was reserved, and only a backdated repair can leave a plant short
  on a dated day.
* **Material numbers** (`MaterialNumbers`, `Numbering`): when the four number ranges stay apart.
* **Amendments** (`Amendments`): a migration decides by a fixpoint which listed declarations can go and deletes
  them in passes under a self-referencing foreign key.
* **Paging** (`Paging`): `$top`/`$skip` readers against a server that may break ties differently on every request.
* **Review** (`Sampling`, `ReviewSheet`, `FloorRange`): round-robin sampling, the blind review sheet and its
  round trip, and the Wilson interval behind a floor range.
* **Delivery watcher** (`Watch`): a polling loop over growing files.
* **Run comparison** (`RunComparison`): counts that have to balance between two runs.

`Arithmetic`, `Sequences` and `Wrappers` hold shared helpers. `dafny verify dfyconfig.toml` checks everything.

## How the code is represented

Functions give the value-level meaning of a step (`StockWalk.Month`, `OarChains.Chain`, `Repairs.Repair`,
`Ledger.Posted`), as a function of the state and of what is drawn. The step-by-step code is modelled by classes and
methods (`Tables.Dataset`, `Generator`, `Run`, `Watch.Job`, `Amendments.AttestationTable`) whose `ensures` equate the
new state with those functions. The lemmas then say what the functions keep, and what the rows they leave say
without them: `Histories.WalkTold`, `OnDemandStock.ChainWritten` and `Repairs.CaseWritten` are stated over the tables,
with dates and quantities worked out from what was drawn, and hold of the tables a run returns (`Run.Accounted`).

Assumptions:

* Random draws are an oracle: any value in the range the code states, in any order. A shuffle is any
  rearrangement.
* Dates are day ordinals; the as-of date is 7 September 2026.
* Stock quantities are integers, as every opening, demand and order is rounded to one; MINBE, MABST and scores
  are exact reals, batch shares are thousandths. Floating-point rounding is not modelled. The square root in the Wilson interval is a
  parameter characterised by its square.
* A material-plant's storage location follows from its plant, so the key (material, plant) stands for both.
* Keys of the sampled pool and of the generated material-plants are distinct. For generated materials that is
  `MaterialNumbers.NumbersDistinct`.
* The watcher's clock advances by at least the polling interval between rounds and never reads zero.

## Where the code and its documentation disagree

The model follows the code; each point has a lemma.

* `fetch_all` promises that truncation is reported, never silent. A page that fails ends the read with part of
  the table and no sign of it (`Paging.FailedPageIsSilent`); the promise holds exactly when no request needed
  fails (`Paging.FetchAllReads`). A table that fills exactly `max_pages` pages is reported as truncated although it was read whole.
* `equivalent_floor` says that the same count clears the proposed floor. With tied new scores more do
  (`FloorRange.TieAdmitsMore`); it holds exactly when the next score is lower (`FloorRange.SameCountUnlessTied`).
* `build_repairs` looks only at the closing stock, but a removal is dated back. The dated ledger can then go below
  zero (`Repairs.GuardIsNotEnough`); it stays at or above zero exactly when a unit was on hand on every day the repaired one
  is away (`Repairs.BackdatedRemoval`). `check` does not look at dated balances, so it still passes.
* `split_quantity` says that its shares are positive-ish and sum back exactly. The last one can be negative, and once
  `build_batch_stock` drops it the batches exceed the stock by a thousandth (`BatchStock.OvershootHappens`), within the tolerance of `check`.
* An order is sized as if nothing were pending, so a full delivery takes the position beyond the maximum by
  what was pending (`StockWalk.OrderIgnoresPending`); `StockWalk.MonthKeeps` gives the bound that does hold.
* A chain drawn as partially received or partially issued is whole when it is for one unit
  (`OarChains.PartialUnlessSingle`).
* Material number ranges run into each other when a range is used up (`MaterialNumbers.NumbersDistinct`).
* With the entity sets and key fields of `data-generator/discovery/properties.csv` as committed, `check` cannot
  pass. Its completeness section reports the department codes and the three gate-pass sets, which nothing
  writes (`KeyFields.NeverComplete`). Its own-key section then stops with an error at the first valuation row,
  which has no `Bwtar`, one of that set's key fields: it stops exactly when there is such a row
  (`KeyFields.OwnKeysStop`). `Run.Generate` is about the sections over the tables modelled in `Ledger` and `Closing`.

## Model

| member | source | states |
|---|---|---|
| `Run.Generate` | data-generator/generate.py:2202-2215 | for any material-plants with distinct keys and everything drawn: the modelled checks count no problem and all documents fit together; the rows of every plant out of OAR scope tell its 24 months: each month's issue is the smaller of its demand and the dated stock before it, there is an order exactly where opening stock and earlier deliveries less issues are down to the reorder point, dated and sized as drawn, every delivery due is received on its day, and there is nothing else; in OAR scope they tell its one to three chains, and for every reservation issued <= received <= reserved and the plant holds received less issued; a repair case, with its reservation, requisition, order and movements, is added for exactly the repairable plants with a unit, and nothing else; each stock row states on hand and inspection stock, together opening stock plus movements; no plant is ever short on a dated day up to the repairs, and none that is not repairable afterwards, while one with a case falls short exactly when none was on hand on a day the unit is away |
| `Run.WriteDocuments` | data-generator/generate.py:2206-2208 | history, chains and repairs leave fitting documents, and every plant's window or chains and its case told by them |
| `Run.BuildHistory` | data-generator/generate.py:1194-1206 | every plant out of OAR scope has its whole window told by its rows, is balanced and was never short on any day, and what it holds and has on order is opening stock and deliveries less issues; plants in scope are untouched and nothing is reserved |
| `Run.SimulateOne` | data-generator/generate.py:1209-1238 | the plant's rows tell its whole window for some valid draws; documents keep fitting, stock balances and is never short on any day, rows are added for that plant only |
| `Run.BuildOarChains` | data-generator/generate.py:1304-1311 | every plant stays balanced and never short; one in OAR scope has one to three chains as drawn and no other document, each reservation issued at most what its order received and that at most what was reserved, and holds the difference; the windows told stay told |
| `Run.BuildChains` | data-generator/generate.py:1310-1311 | the rows added are one to three chains as drawn, in order, and no others; the plant holds what they leave |
| `Run.BuildChain` | data-generator/generate.py:1314-1407 | the chain drawn is what its reservation, requisition, order, receipt and issue say; it keeps a plant balanced and never short, and no other row is touched |
| `Run.ChainSettles` | data-generator/generate.py:1373-1405 | a chain's receipt and issue keep a never-short dated ledger never short |
| `Run.BuildRepairs` | data-generator/generate.py:1471-1478 | a case for exactly the repairable plants with a unit on hand; no document is added for any other plant; a plant with a case gets that case's documents, removal and return, and its dated stock falls short exactly when a unit was missing on a day the repaired one is away |
| `Run.RepairOne` | data-generator/generate.py:1481-1567 | just one reservation, one requisition and one order with its item and schedule line are added, dated as the outcome says, with the removal and return of the case drawn; no other row is touched |
| `Run.RepairIfPossible` | data-generator/generate.py:1473-1478 | a plant that is not repairable or has no unit on hand is left alone, any other gets its case |
| `Run.CloseAndCheck` | data-generator/generate.py:2211-2215 | over balanced positions the closing tables pass every modelled check, and each stock row states what is on hand and in inspection |
| `Run.SimulationSettles` | data-generator/generate.py:1209-1238 | opening stock plus a date-ordered never-negative ledger is never negative on any day, and is the closing stock |
| `Run.OthersKeep` | data-generator/generate.py:926-978 | documents added for one material-plant change no other's movements, sum or dated balance |
| `Run.UntouchedIsSteady` | data-generator/generate.py:2202-2204 | before any movement, closing stock is opening stock |
| `Run.ToldStays` | data-generator/generate.py:1194-1206 | documents added for another plant leave a window or chains told as they were |
| `Run.CaseIsSince` | data-generator/generate.py:1481-1567 | since the history, just the case's documents were added for its plant |
| `Histories.SimulatedTells` | data-generator/generate.py:1209-1238 | for every demand and draw the rows a walk leaves tell the whole window, nothing else was added, and on hand and on order are opening stock and deliveries less issues |
| `Histories.WalkTells` | data-generator/generate.py:1214-1234 | after every month walked the rows tell all months so far, and all that was ordered is received or on its way |
| `Histories.MonthTells` | data-generator/generate.py:1214-1234 | one month adds its issue and its order to what is told and changes nothing told before |
| `Histories.IssueTells` | data-generator/generate.py:1218-1231 | the issue is one movement over the smaller of demand and dated stock, none if that is nothing |
| `Histories.OrderTells` | data-generator/generate.py:1233-1262 | the order at the reorder point: requisition, order, item and schedule line naming each other, dated and sized as drawn, and its delivery on its way unless it is left open |
| `Histories.NothingDueTells` | data-generator/generate.py:1233-1234 | above the reorder point nothing is ordered |
| `Histories.ArriveTells` | data-generator/generate.py:1265-1279 | an arrival is received on its day under its own order, once |
| `Histories.DueIsReceived` | data-generator/generate.py:1236-1238 | once all that is on its way arrives after the as-of date, every delivery due by it is received, and the order history adds up to it |
| `Histories.WalkStaysTold` | data-generator/generate.py:1194-1206 | documents added for another plant leave the window told |
| `Generator.MaterialPlant.constructor` | data-generator/generate.py:773-860 | planning levels, replenishment and opening stock by story as drawn; valid planning data; the plant starts at its opening stock, empty in OAR scope |
| `Generator.Simulate` | data-generator/generate.py:1209-1238 | the loop computes the value-level walk for some valid draws, and adds what is still pending to the open order quantity |
| `Generator.SimulateMonth` | data-generator/generate.py:1214-1234 | arrivals, then the issue, then the order: one month of the walk |
| `Generator.ApplyArrivals` | data-generator/generate.py:1265-1279 | the loop applies exactly the arrivals up to the given day, in order |
| `Generator.RaiseReplenishment` | data-generator/generate.py:1241-1262 | requisition, order and, unless left open, a pending arrival in date order |
| `Generator.BuildOarChain` | data-generator/generate.py:1314-1407 | the documents of one chain and its effect on stock, for some valid draws |
| `Generator.Fulfil` | data-generator/generate.py:1365-1407 | order, receipt and, where the outcome has one, issue of a chain |
| `Generator.OrderAndReceive` | data-generator/generate.py:1365-1377 | the chain's order and the receipt against it |
| `Generator.IssueReceived` | data-generator/generate.py:1398-1407 | the issue of a chain, written back to the reservation |
| `Generator.IssueToOrder` | data-generator/generate.py:1400-1407 | one issue movement naming the reservation, and its quantity on the reservation |
| `Generator.ReserveAndRequest` | data-generator/generate.py:1329-1340 | a reservation and a requisition that name each other |
| `Generator.DrawChain` | data-generator/generate.py:1315-1399 | a chain's draws lie in the stated ranges |
| `Generator.BuildRepairCase` | data-generator/generate.py:1481-1567 | the documents and stock moves of one repair case, for some valid draws; which documents those are is `Repairs.RepairDocuments` |
| `Generator.Dispatch` | data-generator/generate.py:1518-1567 | removal, repair order and return, with stock moving to inspection or back to hand |
| `Generator.SendOut` | data-generator/generate.py:1518-1551 | removal, requisition and repair order in that order |
| `Generator.BuildNewPurchase` | data-generator/generate.py:1601-1617 | a requisition and an order for a new unit; stock is unchanged |
| `Generator.DrawDue` | data-generator/generate.py:1491-1498 | the distance of the promised return from the as-of date, by outcome |
| `Generator.DrawRepair` | data-generator/generate.py:1482-1502 | a repair case's draws lie in the stated ranges |
| `Tables.Dataset.constructor` | data-generator/generate.py:554-555 | no document and every number range at its start |
| `Tables.Dataset.PostMovement` | data-generator/generate.py:926-978 | one header and one item under the next document number |
| `Tables.Dataset.CreateReservation` | data-generator/generate.py:1150-1183 | one reservation under the next number |
| `Tables.Dataset.CreateRequisition` | data-generator/generate.py:981-1025 | one requisition under the next number |
| `Tables.Dataset.CreateOrder` | data-generator/generate.py:1028-1105 | order, item and schedule line under the next number, and the requisition completed with it |
| `Tables.Dataset.Receive` | data-generator/generate.py:1108-1129 | the receipt in the order history and the item's delivered quantity |
| `Tables.Dataset.PostReceipt` | data-generator/generate.py:1274-1278 | a receipt movement naming the order, and its receipt |
| `Ledger.PostedKeeps` | data-generator/generate.py:926-978 | posting a movement keeps the documents fitting together |
| `Ledger.ReservedKeeps` | data-generator/generate.py:1150-1183 | so does a reservation |
| `Ledger.RequestedKeeps` | data-generator/generate.py:981-1025 | so does a requisition, linked both ways with its reservation if it has one |
| `Ledger.OrderedKeeps` | data-generator/generate.py:1028-1105 | so does an order: requisition and item name each other, the requisition is not later than the order |
| `Ledger.ReceivedKeeps` | data-generator/generate.py:1108-1129 | so does a receipt of an order not received before, up to what was ordered: each order is received at most once, not before it was placed, and delivered is what the history adds up to |
| `Calendar.MonthStartStep` | data-generator/generate.py:508-513 | the months of the window follow each other without a gap, each as long as the calendar has it, over year ends and leap years |
| `Calendar.MonthStartIncreases` | data-generator/generate.py:508-513 | later months start later |
| `Calendar.WindowStart` | data-generator/generate.py:508-513 | the window's first month holds the day 730 days before the as-of date |
| `Calendar.WindowEnd` | data-generator/generate.py:508-520 | the last month of the window has begun by the as-of date |
| `Calendar.DaysIncrease` | data-generator/generate.py:516-520 | days drawn in later months are later, and none lies outside the window |
| `Calendar.YearsFollow` | data-generator/generate.py:508-513 | the day count agrees with the leap-year rule at every year end, and begins on the first of January of year 1 |
| `Calendar.MonthLength` | data-generator/generate.py:508-513 | the exact length of every month of every year |
| `Calendar.DayOfItsMonth` | data-generator/generate.py:516-520 | what can be drawn for a month is exactly its days up to the as-of date, for the last one all days from its first to that date |
| `Planning.LevelsOrdered` | data-generator/generate.py:788-809 | safety stock, reorder point and maximum keep their order through drift and rounding |
| `Planning.OpeningFits` | data-generator/generate.py:811-823 | nothing opens below zero; a replenished plant opens at its reorder point, a short one at half of it at most, an on-demand one empty |
| `Planning.LevelsAsDrawn` | data-generator/generate.py:788-809 | safety stock, reorder point and maximum are what was drawn, by story, rounded to thousandths and kept in order |
| `Planning.OpeningAsDrawn` | data-generator/generate.py:811-823 | so is the opening stock, rounded to a unit, and which plants replenish |
| `Rounding.PartWithin` | data-generator/generate.py:1259 | part of a quantity is within half a unit of the share, or one, and never more than the quantity |
| `StockWalk.SimulatedKeeps` | data-generator/generate.py:1209-1238 | over the whole window, for every demand and draw: documents fit, the plant's movements are in date order and add up to its stock, dated stock is never negative, and what is pending arrives after the as-of date |
| `StockWalk.WalkKeeps` | data-generator/generate.py:1214-1234 | every state the walk reaches is sound and its position bounded |
| `StockWalk.MonthKeeps` | data-generator/generate.py:1214-1234 | one month keeps the ledger, the pending queue and the bound on on-hand plus pending |
| `StockWalk.ApplyArrivalsKeeps` | data-generator/generate.py:1265-1279 | after the arrivals up to a day everything pending is later, the ledger is in order and the position is unchanged |
| `StockWalk.ArriveKeeps` | data-generator/generate.py:1271-1279 | one arrival books its own order once and moves its quantity from pending to on hand |
| `StockWalk.IssueKeeps` | data-generator/generate.py:1218-1231 | an issue takes the smaller of demand and stock, and never more than is there |
| `StockWalk.ReplenishKeeps` | data-generator/generate.py:1241-1262 | an order keeps the queue sorted and adds what will be delivered; one requisition and one order more |
| `StockWalk.ReplenishBounds` | data-generator/generate.py:1233-1262 | at the reorder point an order keeps the position within fill-up level plus reorder point plus one, and a full delivery reaches the fill-up level |
| `StockWalk.OrdersAtReorderPoint` | data-generator/generate.py:1218-1234 | a month raises one order exactly when the plant replenishes and the position, less the month's issue, is down to the reorder point |
| `StockWalk.OrderIgnoresPending` | data-generator/generate.py:1247-1262 | a full delivery overshoots the fill-up level by just what was pending |
| `StockWalk.InsertKeeps` | data-generator/generate.py:1261-1262 | appending and sorting by date keeps the queue sorted and its total |
| `StockWalk.DayAfter` | data-generator/generate.py:516-520 | the days of consecutive months do not go back |
| `Balances.DatedNeverNegative` | data-generator/generate.py:1209-1279 | movements posted in date order that are never negative in posting order are never negative by date |
| `Balances.NetConcat` | data-generator/generate.py:2115-2119 | sums over movements add up over parts of the ledger |
| `Balances.BalanceConcat` | data-generator/generate.py:2115-2119 | so do dated balances |
| `OarChains.QuantitiesNest` | data-generator/generate.py:1318-1398 | issued <= received <= reserved in every chain |
| `OarChains.PartialUnlessSingle` | data-generator/generate.py:1369-1398 | a partial outcome falls short exactly when more than one unit was asked for; every other outcome takes all or nothing |
| `OarChains.DatesFollow` | data-generator/generate.py:1321-1399 | reservation, requisition, order, receipt and issue follow each other and end by the as-of date |
| `OarChains.ChainKeeps` | data-generator/generate.py:1314-1407 | a chain keeps the documents fitting and leaves reserved and issued quantities on its reservation |
| `OarChains.ChainNeverOwes` | data-generator/generate.py:1373-1405 | on no day has a chain issued more than it received, and it leaves received less issued |
| `OnDemandStock.ChainAdds` | data-generator/generate.py:1314-1407 | one reservation is added; its requisition, order, receipts and issues add up to what the chain drew; no earlier row is touched |
| `OnDemandStock.ChainIsDated` | data-generator/generate.py:1321-1407 | a chain's reservation, requisition, order, item, schedule line, receipt and issue, each dated as drawn |
| `OnDemandStock.DrawnAs` | data-generator/generate.py:1370-1398 | what each outcome receives and issues of what was asked for |
| `OnDemandStock.ChainRows` | data-generator/generate.py:1329-1407 | a chain's rows, table by table |
| `OnDemandStock.ChainTotals` | data-generator/generate.py:1367-1407 | the new order's receipts and the new reservation's issues are the chain's quantities |
| `OnDemandStock.ServedKept` | data-generator/generate.py:926-1183 | what an earlier reservation was served does not change when documents are added for any plant |
| `OnDemandStock.SettledKept` | data-generator/generate.py:926-1183 | documents added for one plant leave every other holding what its reservations leave |
| `OnDemandStock.ChainStock` | data-generator/generate.py:1314-1407 | a chain's plant holds what the chain left on top of what it held, and every reservation stays served |
| `OnDemandStock.RepairAdds` | data-generator/generate.py:1481-1567 | a repair case adds documents for its plant only |
| `Repairs.StagesFollowDates` | data-generator/generate.py:1491-1502 | removal, requisition, order and promised return follow each other; overdue and expected-back cases are exactly those whose promised date says so |
| `Repairs.RepairDocuments` | data-generator/generate.py:1481-1617 | a case keeps the documents fitting and, for every outcome, adds just one reservation, one requisition and one order with its item and schedule line, for one unit, item and requisition naming each other, dated as the outcome says, and the removal and return it has |
| `Repairs.CaseRows` | data-generator/generate.py:1505-1617 | a case's rows, table by table |
| `Repairs.CaseIsWritten` | data-generator/generate.py:1491-1617 | the case's rows and movements at their places, item and requisition naming each other, a returned unit received against the order |
| `Repairs.RepairKeeps` | data-generator/generate.py:1518-1567 | on hand plus quality stock changes by exactly the case's movements, and neither goes negative |
| `Repairs.RepairBalance` | data-generator/generate.py:1518-1567 | a case's dated balance is minus one exactly while the unit is away |
| `Repairs.BackdatedRemoval` | data-generator/generate.py:1474-1522 | dated stock stays non-negative exactly when a unit was on hand on every day the repaired one is away |
| `Repairs.GuardIsNotEnough` | data-generator/generate.py:1476-1477 | a run of the walk itself, from levels and an opening the constructor can draw, that ends with a unit on hand and whose dated stock the repair still takes below zero |
| `Repairs.LoneSimulated` | data-generator/generate.py:1209-1279 | that run month by month: the unit is used in July 2026 and its replacement arrives at the end of August |
| `Repairs.LoneLevels` | data-generator/generate.py:788-823 | the planning levels and the opening stock of that run can be drawn |
| `BatchStock.SharesAddUp` | data-generator/generate.py:523-532 | shares sum to the total exactly; only the last can be negative, by at most half a thousandth for each other share |
| `BatchStock.BatchesAddUp` | data-generator/generate.py:1904-1913 | the positive shares sum to the stock or exceed it by what the last fell below zero: within a thousandth for four parts |
| `BatchStock.OvershootHappens` | data-generator/generate.py:523-532 | three cuts for which the batches exceed the stock by a thousandth |
| `BatchStock.RoundedNear` | data-generator/generate.py:528-530 | rounded shares are non-negative and add up to at most half a thousandth each beyond the cut |
| `BatchStock.SharesMatchCuts` | data-generator/generate.py:528-531 | each share but the last is within half a thousandth of the distance between its cuts |
| `Closing.FinalisePoItems` | data-generator/generate.py:1964-1972 | each schedule line and item gets what was received for its own order |
| `Closing.FinaliseLines` | data-generator/generate.py:1968-1969 | every schedule line gets what was received for its order |
| `Closing.FinaliseItems` | data-generator/generate.py:1970-1972 | every item is completed when what was received reaches what was ordered |
| `Closing.FinalisedKeeps` | data-generator/generate.py:1964-1972 | delivered is what the goods receipts add up to, between nothing and all that was ordered; completed exactly when all was delivered |
| `Closing.CollectItems` | data-generator/generate.py:1966-1967 | both look-ups hold, for every order, its received and its ordered quantity |
| `Closing.WriteStock` | data-generator/generate.py:1862-1874 | one stock row for each material-plant |
| `Closing.SplitQuantity` | data-generator/generate.py:523-532 | the loop computes the shares of some sorted cuts, one less than the parts; each matches its cuts, and they sum to the total |
| `Closing.AddBatches` | data-generator/generate.py:1904-1913 | a batch row for every positive share, in order, numbered on |
| `Closing.BuildBatchStock` | data-generator/generate.py:1889-1913 | the batches of each plant sum to its stock or a thousandth more; batch numbers are distinct |
| `Closing.InsertCutKeeps` | data-generator/generate.py:528 | the cuts stay sorted and within the total |
| `Check.CheckAll` | data-generator/generate.py:1982-2129 | no problem is counted exactly when every modelled section accepts the tables |
| `Check.CheckKeys` | data-generator/generate.py:2006-2023 | own keys are unique |
| `Check.CountRepeats` | data-generator/generate.py:2018-2023 | counts none exactly when no key repeats |
| `Check.CheckMaterials` | data-generator/generate.py:2026-2047 | materials and material-plants referred to exist |
| `Check.CheckParents` | data-generator/generate.py:2026-2047 | items, schedule lines, history and movements have their parents |
| `Check.CheckOptional` | data-generator/generate.py:2049-2060 | optional references resolve where they are set |
| `Check.CheckPlants` | data-generator/generate.py:2062-2068 | plants are known |
| `Check.CheckBatches` | data-generator/generate.py:2070-2083 | batches sum to their stock within a hundredth of a unit |
| `Check.TotalBatches` | data-generator/generate.py:2072-2075 | the running totals are the sums by key |
| `Check.CheckDates` | data-generator/generate.py:2085-2101 | requisition before order before receipt, delivery date not before the order, nothing posted in the future |
| `Check.CheckQuantities` | data-generator/generate.py:2103-2112 | ordered quantities are positive, delivered at most ordered, stock not negative |
| `Check.CheckStock` | data-generator/generate.py:2114-2129 | closing stock is opening stock plus signed movements |
| `Check.TotalMovements` | data-generator/generate.py:2115-2119 | the running totals are the signed sums by key |
| `Check.CollectRequisitionDates` | data-generator/generate.py:2086 | dates by requisition number, a later row overriding |
| `Check.CollectOrderDates` | data-generator/generate.py:2087 | dates by order number, a later row overriding |
| `Consistency.FinishedIsConsistent` | data-generator/generate.py:1982-2129 | tables that fit together, with deliveries and stock written, are accepted by every section |
| `Consistency.ParentsHold` | data-generator/generate.py:2026-2047 | every child row's parent exists |
| `Consistency.OptionalHold` | data-generator/generate.py:2049-2060 | every optional reference resolves |
| `Consistency.DatesHold` | data-generator/generate.py:2085-2101 | the date checks cannot fire |
| `KeyFields.CheckOwnKeys` | data-generator/generate.py:2006-2023 | the own-key section stops exactly when a row of some set lacks a key field, and counts no problem exactly when every key can be taken and none repeats |
| `KeyFields.CheckSet` | data-generator/generate.py:2018-2023 | the same for one set |
| `KeyFields.ProjectKey` | data-generator/generate.py:2020 | a row's key, unless it lacks a field |
| `KeyFields.CheckComplete` | data-generator/generate.py:2002-2004 | reports exactly the empty sets that are not known to be empty |
| `KeyFields.OwnKeysStop` | data-generator/generate.py:1877-1886 | with the discovered key fields the own-key section stops exactly when there is a valuation row |
| `KeyFields.ValuationKeyMissing` | data-generator/generate.py:1877-1886 | valuation rows lack a key field |
| `KeyFields.NeverComplete` | data-generator/generate.py:2002-2004 | every run leaves the department codes and gate passes empty, and they are reported |
| `MaterialNumbers.Counter.constructor` | data-generator/generate.py:442-444 | a range begins at its start |
| `MaterialNumbers.Counter.Take` | data-generator/generate.py:446-449 | the next number, padded, and the range moved on by one |
| `MaterialNumbers.NumberMaterials` | data-generator/generate.py:675-689 | each material gets its range's next number |
| `MaterialNumbers.NumbersDistinct` | data-generator/generate.py:452-455 | numbers, as written, are distinct exactly when no range runs into a later one in use |
| `MaterialNumbers.FewMaterialsAreDistinct` | data-generator/generate.py:452-455 | up to ten million materials are numbered apart |
| `Numbering.JustifiedReadsBack` | data-generator/generate.py:446-505 | a padded number can be read back, however it is padded |
| `Amendments.DeletableAttestations` | alembic/versions/c5e1a9d37f02_wipe_i8_nonprod_test_rows.py:139-165 | a present row is kept exactly when a chain of amendments leads from it to a row outside the list; the fixpoint ends |
| `Amendments.DeletableIsGreatestClosed` | alembic/versions/c5e1a9d37f02_wipe_i8_nonprod_test_rows.py:139-165 | what can go is the greatest part of the present rows closed under amendment |
| `Amendments.AttestationTable.SelectSuperseded` | alembic/versions/c5e1a9d37f02_wipe_i8_nonprod_test_rows.py:178-186 | the remaining ids that some row still amends |
| `Amendments.AttestationTable.Delete` | alembic/versions/c5e1a9d37f02_wipe_i8_nonprod_test_rows.py:190-193 | the rows go and the foreign key holds |
| `Amendments.DeleteAttestations` | alembic/versions/c5e1a9d37f02_wipe_i8_nonprod_test_rows.py:168-196 | the foreign key holds after every pass; the rows left are exactly those from which amendments lead outside the set or into a cycle within it; everything goes exactly when the set is closed and free of cycles; what is left of a closed set holds a cycle; the count is what went |
| `Amendments.FreeRowsCanGo` | alembic/versions/c5e1a9d37f02_wipe_i8_nonprod_test_rows.py:187-193 | rows that nothing amends can be deleted without a dangling reference |
| `Amendments.AllAmendedHasCycle` | alembic/versions/c5e1a9d37f02_wipe_i8_nonprod_test_rows.py:187-189 | a pass that frees nothing has found a cycle |
| `Amendments.WhatIsLeft` | alembic/versions/c5e1a9d37f02_wipe_i8_nonprod_test_rows.py:187-196 | the rows left are exactly those from which amendments lead out or into a cycle |
| `Amendments.NothingStuck` | alembic/versions/c5e1a9d37f02_wipe_i8_nonprod_test_rows.py:168-189 | no row has to stay behind exactly when the set is closed and free of cycles |
| `Amendments.Database.Upgrade` | alembic/versions/c5e1a9d37f02_wipe_i8_nonprod_test_rows.py:209-239 | a listed declaration stays exactly when a chain of amendments leads from it to a row that is not listed or into a cycle of listed rows; a justification goes exactly when it is listed and a new acquisition; nothing else changes |
| `Amendments.WipeResult` | alembic/versions/c5e1a9d37f02_wipe_i8_nonprod_test_rows.py:209-230 | what the delete leaves of the present rows is what the list and the amendments say has to stay |
| `Paging.NegotiateOrder` | live_checks/odata_live_check.py:615-620 | the longest accepted order prefix is used |
| `Paging.ReadAll` | live_checks/odata_live_check.py:603-642 | ends; reads what was answered, as long as more is wanted; an error is exactly a request that failed, or no order that was accepted, so a server that answers is read without one and, without a limit, completely; the rows are the table's in an allowed order; nothing failed and nothing cut short means the table's size; a complete read misses as many keys as it repeats |
| `Paging.ReadPages` | live_checks/odata_live_check.py:624-641 | the rows are the answers to consecutive requests, each made exactly because more was wanted; it ends with an error exactly if the request wanted failed, and as a sample exactly if the limit was reached with a full page |
| `Paging.AnsweredInOrder` | live_checks/odata_live_check.py:624-641 | the answers stand where an allowed order of the table puts them, and are the table once a page is short |
| `Paging.EndsWithTable` | live_checks/odata_live_check.py:624-641 | a read in which nothing failed and nothing was cut short has the table's size |
| `Paging.FullReadHasTablePrefixes` | live_checks/odata_live_check.py:603-642 | a read of the table's size has its prefix values with multiplicity, so a missing or repeated key lies in a tied group |
| `Paging.FullKeyReadIsExact` | live_checks/odata_live_check.py:603-642 | with the whole key accepted the read is the beginning of the table, and all of it at full size |
| `Paging.MissingEqualsDuplicates` | live_checks/odata_live_check.py:594-642 | in any order: a read of the table's size misses as many keys as it repeats, and without duplicates is the table |
| `Paging.CompleteReadMisses` | live_checks/odata_live_check.py:594-596 | what `complete` lets the reader conclude against a correct count |
| `Paging.OrderingsAgreeOnPrefixes` | live_checks/odata_live_check.py:603-642 | any two orders a prefix allows agree on the prefixes, place by place |
| `Paging.SortedIsUnique` | live_checks/odata_live_check.py:603-642 | a sorted arrangement of given values is unique |
| `Paging.FetchAll` | data-generator/cpi_discovery.py:791-812 | the loop computes the page-by-page reading |
| `Paging.FetchAllReads` | data-generator/cpi_discovery.py:791-812 | reads the table, or says it stopped, exactly when no needed request fails; then all of it, or its first pages; the pages counted are those answered |
| `Paging.FailedPageIsSilent` | data-generator/cpi_discovery.py:802-804 | a failed second page: part of the table and no warning |
| `Sampling.ChooseTargets` | scripts/oar_identity_review.py:116-165 | every usable reported case is taken; picks are distinct and usable; the focus picks are spread over the group sorted by kind of description; the size is min(count, usable) or the preselection; the draw is fair |
| `Sampling.DrawInTurn` | scripts/oar_identity_review.py:151-165 | ends with min(room, rest) targets, distinct, and fair over strata |
| `Sampling.DrawRound` | scripts/oar_identity_review.py:159-164 | one turn for each stratum until there is no room |
| `Sampling.RoundIsFair` | scripts/oar_identity_review.py:157-164 | two strata differ by at most one draw unless the one with fewer is used up, and then the extra went to the larger |
| `Sampling.GroupByStratum` | scripts/oar_identity_review.py:151-154 | each stratum holds its members |
| `Sampling.ShuffleStrata` | scripts/oar_identity_review.py:155-156 | a shuffle moves nothing between strata |
| `Sampling.SortStrata` | scripts/oar_identity_review.py:157 | larger strata first, then by label |
| `Sampling.Preselect` | scripts/oar_identity_review.py:139-149 | every usable reported case, and distinct focus picks, evenly spread over the usable rest of the focus group sorted by kind of description |
| `Sampling.SpreadIsDistinct` | scripts/oar_identity_review.py:168-175 | distinct picks, min(count, size) of them |
| `Sampling.SpreadIsEven` | scripts/oar_identity_review.py:168-175 | neighbouring picks lie evenly apart |
| `Sampling.SortByKindRearranges` | scripts/oar_identity_review.py:147 | the sort loses and repeats nothing |
| `Sampling.KindsAreSorted` | scripts/oar_identity_review.py:147 | the sort puts the kinds of description in order |
| `FloorRange.WilsonContainsShare` | scripts/oar_identity_review.py:736-745 | the interval contains the observed share, lies in the unit interval and is never empty |
| `FloorRange.WilsonSolves` | scripts/oar_identity_review.py:736-745 | the ends are the solutions of the score equation, which cutting off at 0 and 1 leaves alone |
| `FloorRange.WilsonCoversCount` | scripts/oar_identity_review.py:771-775 | scaled to counts, it contains the count |
| `FloorRange.RangeAt` | scripts/oar_identity_review.py:774-776 | both ends of the range are scores, on either side of the proposed floor; the lower end is the highest floor that the interval's upper count of scores reaches, the upper end is reached by the whole part of its lower count and exceeded by fewer |
| `FloorRange.RangeFromRanks` | scripts/oar_identity_review.py:774-776 | 1 <= k_low <= k <= k_high <= n; at least as many scores as each rank reach its end of the range, and fewer exceed it |
| `FloorRange.FloorRangeBrackets` | scripts/oar_identity_review.py:748-776 | the interval is the score interval around the selectivity; the range brackets the proposed floor and its ends match the counts that the interval's ends stand for; at least k new scores reach the floor and fewer than k exceed it; nothing is proposed exactly when the old floor admitted nothing |
| `FloorRange.WithoutPairs` | scripts/oar_identity_review.py:748-776 | different lengths are an error, and no pairs give no interval and no floor |
| `FloorRange.RankClears` | scripts/oar_identity_review.py:765-767 | what the k-th highest score admits, exactly k only without a tie |
| `FloorRange.ClearingIsPrefix` | scripts/oar_identity_review.py:763-767 | in descending order the scores that clear a floor are the first so many |
| `FloorRange.SameCountUnlessTied` | scripts/oar_identity_review.py:752-767 | the same count clears the proposed floor exactly when the next score is lower |
| `FloorRange.TieAdmitsMore` | scripts/oar_identity_review.py:752-755 | a tie through which more pairs clear it |
| `ReviewSheet.MergePairs` | scripts/oar_identity_review.py:192-230 | one record for each candidate, with every arm it appeared in and its places |
| `ReviewSheet.MergeArm` | scripts/oar_identity_review.py:208-229 | one arm's loop keeps the records exact |
| `ReviewSheet.RankIsPlace` | scripts/oar_identity_review.py:215-222 | a record's rank is its place in the arm's list |
| `ReviewSheet.BlindOrder` | scripts/oar_identity_review.py:233-237 | a rearrangement of the records |
| `ReviewSheet.WriteKey` | scripts/oar_identity_review.py:258-284 | a key row and a sheet row under one fresh pair number for every record of every target, and for nothing else |
| `ReviewSheet.WriteTarget` | scripts/oar_identity_review.py:260-284 | one target's records, each under the next pair number |
| `ReviewSheet.PairIdsDiffer` | scripts/oar_identity_review.py:261-262 | pair ids never repeat, however many pairs |
| `ReviewSheet.SplitJoin` | scripts/oar_identity_review.py:278 | splitting on the separator undoes joining |
| `ReviewSheet.ArmsRoundTrip` | scripts/oar_identity_review.py:278 | joined arms decode to the same set |
| `ReviewSheet.DecodeEncode` | scripts/oar_identity_review.py:275-284 | a key row reads back to the record it was written from |
| `ReviewSheet.LoadReview` | scripts/oar_identity_review.py:331-377 | the judged rows are the answers to known pairs in order, each joined to the last key row of its pair and relevant exactly if it says yes; blank, unsure and unknown rows are counted as what they say; the first row that says none of these stops the reading with its line |
| `ReviewSheet.JudgedJoins` | scripts/oar_identity_review.py:334-376 | which answers are judged and which unknown, and what each is joined to |
| `ReviewSheet.JudgedOnce` | scripts/oar_identity_review.py:331-377 | no pair is judged twice when no pair id is answered twice |
| `ReviewSheet.JudgedWhenAnswered` | scripts/oar_identity_review.py:340-376 | a known pair answered yes or no is judged, relevant exactly if yes |
| `ReviewSheet.JudgedExactly` | scripts/oar_identity_review.py:331-377 | judged relevant are exactly the known pairs answered yes, judged not relevant exactly those answered no, and no other is judged |
| `ReviewSheet.Rankings` | scripts/oar_identity_review.py:380-388 | for each target the candidates in the arm's order |
| `ReviewSheet.RankingIsJudgedPart` | scripts/oar_identity_review.py:380-388 | the ranking is the judged part of the arm's list in its own order |
| `ReviewSheet.RoundTrip` | scripts/oar_identity_review.py:192-388 | merge, shuffle, write, answer any rows in any order, join: the ranking is exactly the part of the original list answered yes or no, in its order, and relevant are exactly the candidates answered yes |
| `Watch.Watch` | live_checks/csv_live_check.py:405-436 | ends with no job pending, each where its rounds left it, stopped at the cap as soon as a round starts past the longest wait and not before |
| `Watch.Job.Fire` | live_checks/csv_live_check.py:617-625 | the baseline and level of every path watched is its size before the request; no other path's changes |
| `Watch.Job.LookAround` | live_checks/csv_live_check.py:413-420 | one job's look at its files |
| `Watch.Job.Poll` | live_checks/csv_live_check.py:412-426 | one job's round |
| `Watch.Job.StopIfPending` | live_checks/csv_live_check.py:429-430 | at the cap a pending job is delivered if anything grew |
| `Watch.PollAll` | live_checks/csv_live_check.py:412-426 | one round polls every pending job |
| `Watch.StopAll` | live_checks/csv_live_check.py:428-430 | the cap stops every pending job |
| `Watch.LevelIsRunningMaximum` | live_checks/csv_live_check.py:413-420 | what is recorded for a file is the running maximum of what was seen |
| `Watch.GrowthTelescopes` | live_checks/csv_live_check.py:416-420 | reported growth adds up to what is recorded less the baseline |
| `Watch.GrowthRecorded` | live_checks/csv_live_check.py:405-436 | growth is recorded exactly when seen above the baseline while pending |
| `Watch.DeliveredIffGrowthSeen` | live_checks/csv_live_check.py:405-436 | a job ends delivered exactly when growth above its baseline was seen, timed out otherwise |
| `Watch.LastGrowthIsLatest` | live_checks/csv_live_check.py:419-420 | the last growth recorded is the latest there was |
| `Watch.FirstGrowthIsEarliest` | live_checks/csv_live_check.py:419 | the first growth recorded is the earliest there was |
| `Watch.SettledWhenDue` | live_checks/csv_live_check.py:422-426 | delivered only after the quiet time without growth, timed out only after the first timeout without any, pending otherwise |
| `RunComparison.SummariseEligibility` | scripts/i7_window_audit.py:48-64 | each transition and each change of class is counted as often as material-plants made it; for every gate status, after plus outgoing equals before plus incoming |
| `RunComparison.DiffParameter` | scripts/i7_window_audit.py:104-137 | each count is a pass of its own, and they balance: evaluable after is before plus new less lost; compared is before less lost; increased and decreased are those that rose and fell; up, down and same make up compared; both values are what the compared quantities are worth at the prices before |
| `RunComparison.CountWhere` | scripts/i7_window_audit.py:123-132 | a pass counts each key of a mapping once |
| `RunComparison.CompareBoth` | scripts/i7_window_audit.py:111-122 | every material-plant evaluable in both runs is compared once, with both values |
| `RunComparison.WorthInAnyOrder` | scripts/i7_window_audit.py:115-121 | the value does not depend on the order |
| `RunComparison.WorthOfMove` | scripts/i7_window_audit.py:115-121 | a uniform move at a uniform price is worth price times move for each |

## Left out

- Check.CheckAll: master, valuation, invoice, change-document, statistics and platform rows are not among its tables, so their keys and references are not checked; completeness and declared key fields are in `KeyFields`.
- Check.CheckKeys: own keys of master, valuation, change-document and statistics rows are not counted; which declared keys can be taken at all is `KeyFields.CheckOwnKeys`.
- Check.CheckMaterials: description, valuation and plant rows are not checked against the materials.
- Check.CheckParents: change-document items are not checked against their headers.
- Check.CheckPlants: plant rows and statistics rows are not checked against the plant codes.
- RunComparison.SummariseEligibility: class, OAR, forecastable and donor counts and the price-weighted driver totals are not modelled; each is a pass of its own that nothing else has to balance with.
- Master data other than planning levels: vendors, info records, descriptions, prices, texts and demand shaping; demand is any sequence of 24 non-negative integers.
- Invoice rows of the order history, valuation, movement statistics, change documents and the platform tables with their references in `check`; document years, which header and item take from the same date.
- Whether a set that has a writer gets a row: that depends on the draw.
- Dates and texts that no modelled check reads, such as the reservation's needed-by date and the planned use date.
- Recommendations, classification and demand forecasting in `generate.py`; writing the CSV files.
- Order items are rows of a sequence updated by index; the original shares one mutable object between the pending queue and the item list.
- The Wilson interval's square root is characterised, not computed; scores are exact, so equal floats stand for equal reals.
- Stratum labels are represented by their place in string order; a seed's particular shuffle is not modelled.
- Sheet columns that play no part in the round trip (descriptions, prices, notes), and the spellings accepted for yes, no and unsure.
- `count_of`, the filter probes and metadata reading of the two OData tools; HTTP, tokens and retries.
- Batching of fired requests and file contents in the CSV check; paths are opaque.
- Trigger handling, logging and transactions of the migration, and the other revisions.
