# JAILGAME in Dafny

JAILGAME is a territory-and-gang management game written as two pygame scripts.
Under the drawing code each script is a small sequential state machine, and this
project models that machine and proves properties of it.

- **The full version** (`FirstversionJOHIBB1.py`) has:
  - five European territories to buy, the first one free;
  - a general pool of gang members and a roster per territory;
  - four kinds of business, each assigned to an owned territory, whose income grows
    with that territory's roster;
  - a bank that lends fixed amounts at tiered interest;
  - an in-game date that advances one day every five seconds;
  - a pause button;
  - a chain of dialog flags that decides what a mouse click means.
- **The simple version** (`SecondversionWILL.py`) has five territories, each with a
  price and a tax. A click buys the territory under the cursor, and taxes are collected
  once a second.

The model is organised in modules:

- `Geometry`:
  - `point_in_polygon` as a loop proved equal to the parity of edge crossings;
  - `get_polygon_centroid` as a loop proved equal to the shoelace formula;
  - the first-containing-territory scan that both scripts use for clicks.
- `Territory`: the five territories in dictionary order, and a per-territory record
  that stands for the scripts' dictionaries.
- `Economy`: the pure bookkeeping definitions of the full version.
  - business income;
  - the tiered interest table;
  - the income and roster sums the game collects by scanning its dictionaries;
  - the invariants of the business registry.
- `FullData`:
  - the full version's constants;
  - the abstract clicks;
  - the record of dialog flags, and `RouteOf`, which picks the branch a click takes.
- `FullGame`: class `GameState`, which holds the full version's state.
  - one method per bookkeeping operation;
  - one method per branch of the click chain;
  - `HandleClick`, which dispatches a click;
  - `Tick`, the once-a-frame accrual.
- `SimpleGame`: class `SimpleState`, which holds the simple version.

State the scripts change in place becomes class fields, changed by methods with field-level
`modifies` clauses. Each method's effect is stated as a two-state predicate over the
old and new state, and the invariant `Valid` holds across every branch:

- money, debt and interest are never negative;
- the business registry is consistent;
- every business sits on an owned territory;
- every income matches its business and roster;
- the HQ is owned once the first purchase is done.

## Notes on the code's behaviour

- Selling a member pops it from the general pool at the index the dialog carries. The
  profile offers "Sell" only for a member in the pool, so an assigned member cannot be
  sold without first being unassigned.
- The dialog flags are independent booleans, not one exclusive modal.
  - Several flags can be up at once. For example, the bank dialog stays open under the
    borrow confirmation, and the profile stays open under the sell confirmation.
  - The branch taken is the first raised flag in the order of the `if/elif` chain.
    `FullData.RouteOf` models this.
- A new member is named from the current sizes of the pool and all rosters, not from a
  counter. After a sale, a later hire can repeat an existing name. The model keeps the
  code's formula (`Economy.NextMember`).
- Pausing does not reset the income, interest and date clocks. On resume, one tick pays
  the income once and advances the date by the whole paused time divided by five seconds.

## Model

| member | source | states |
|---|---|---|
| Geometry.Trunc | JAILGAME/FirstversionJOHIBB1.py:242 | Python's `int()` on a float: the result lies within one of its argument, on the side of zero |
| Geometry.PointInPolygon | JAILGAME/SecondversionWILL.py:52-65 | the n+1-step ray-casting loop, including the wrap-around step and the `xinters` carried between iterations, answers exactly whether the number of crossing edges over the n closed edges is odd (the copy at FirstversionJOHIBB1.py:211-224 is identical) |
| Geometry.CrossingUsesFreshIntersect | JAILGAME/SecondversionWILL.py:59-63 | inside the band test no edge is horizontal, so the toggle test always reads an `xinters` computed for this very edge, never a stale one |
| Geometry.HorizontalEdgeNeverCrosses | JAILGAME/SecondversionWILL.py:59 | a horizontal edge (including the extra step that pairs vertex 0 with itself) never toggles `inside` |
| Geometry.OutsideBoundingBox | JAILGAME/SecondversionWILL.py:59 | a point whose y is greater than every vertex's y, or at most every vertex's y, or whose x is greater than every vertex's x, crosses no edge and is not inside |
| Geometry.RectangleInside | JAILGAME/SecondversionWILL.py:52-65 | against an axis-aligned rectangle the test accepts exactly x0 < x <= x1 and y0 < y <= y1: the left and top borders are outside, the right and bottom borders inside |
| Geometry.Crossings | JAILGAME/SecondversionWILL.py:57-64 | defines the number of edges poly[j] -> poly[(j+1) % n], j < k, whose band test holds and whose crossing lies at or right of the point |
| Geometry.Inside | JAILGAME/SecondversionWILL.py:52-65 | defines the reference answer of the test: that crossing number over all n closed edges is odd |
| Geometry.CentroidOf | JAILGAME/SecondversionWILL.py:68-83 | defines the reference centroid: vertex 0 for a zero shoelace sum, otherwise each moment sum over 3 times the shoelace sum (= 6 times the area), truncated toward zero |
| Geometry.PolygonCentroid | JAILGAME/SecondversionWILL.py:68-83 | the centroid loop returns vertex 0 when the shoelace sum is zero, and otherwise the truncated moment sums over 3 times the shoelace sum, closing edge included (FirstversionJOHIBB1.py:227-242 is the same code) |
| Geometry.RectangleShoelace | JAILGAME/SecondversionWILL.py:71-75 | the shoelace sum of a rectangle is twice its area |
| Geometry.RectangleMomentX | JAILGAME/SecondversionWILL.py:76 | the x moment sum of a rectangle is 3 (x0 + x1) times its area |
| Geometry.RectangleMomentY | JAILGAME/SecondversionWILL.py:77 | the y moment sum of a rectangle is 3 (y0 + y1) times its area |
| Geometry.RectangleCentroid | JAILGAME/SecondversionWILL.py:78-83 | the centroid of a non-degenerate rectangle is its midpoint, truncated |
| Geometry.FirstInside | JAILGAME/SecondversionWILL.py:151-165 | the scan result is the first polygon in list order that holds the point, with every earlier one not holding it, or none when no polygon holds it |
| Geometry.FirstContaining | JAILGAME/FirstversionJOHIBB1.py:672-678 | the scan loop with its early `break` returns exactly FirstInside |
| Economy.BusinessIncome | JAILGAME/FirstversionJOHIBB1.py:448 | defines a business's income for n members as base * (10 + n) / 10 in integers |
| Economy.IncomeTruncates | JAILGAME/FirstversionJOHIBB1.py:448 | the integer income base * (10 + n) / 10 is `int(base * (1 + n * 0.1))` computed exactly: at most the real value and less than one below it |
| Economy.BusinessIncomeGrows | JAILGAME/FirstversionJOHIBB1.py:466-469 | a business earns at least its base rate, and assigning more members never lowers its income |
| Economy.GunProductionWithThree | JAILGAME/FirstversionJOHIBB1.py:448 | Gun Production with three members earns 130 a second |
| Economy.TierInterest | JAILGAME/FirstversionJOHIBB1.py:695-698 | defines the sum the interest loop adds: debt * rate for every tier, in table order, whose threshold is at most the debt |
| Economy.InterestDue | JAILGAME/FirstversionJOHIBB1.py:694-699 | defines one second of interest as that sum over the whole table |
| Economy.InterestClosedForm | JAILGAME/FirstversionJOHIBB1.py:694-699 | one second of interest is the debt times the sum of the rates of every tier at or below the debt, not the rate of one bracket |
| Economy.InterestOn600 | JAILGAME/FirstversionJOHIBB1.py:694-699 | a debt of 600 accrues 1.5 a second |
| Economy.InterestBounds | JAILGAME/FirstversionJOHIBB1.py:168-174 | no interest below 100; otherwise between 0.1 % and 1 % of the debt a second; a larger debt never accrues less |
| Economy.IncomeDue | JAILGAME/FirstversionJOHIBB1.py:687-692 | defines the income one pass collects: business_income of every owned territory that runs a business |
| Economy.IncomeDueNonNegative | JAILGAME/FirstversionJOHIBB1.py:687-692 | with non-negative business incomes, a pass of income collection adds a non-negative amount |
| Economy.RosterUpdate | JAILGAME/FirstversionJOHIBB1.py:466 | replacing one territory's roster changes the bag and the count of all assigned members by exactly the difference between the old and new roster |
| Economy.NextMember | JAILGAME/FirstversionJOHIBB1.py:330 | a new member's number is one more than the number of members in the pool and on all rosters together, counted from the current collections |
| Economy.RegistryAdd | JAILGAME/FirstversionJOHIBB1.py:440-449 | placing a business on a territory without one keeps the registry invariant: one entry per territory, and a territory records a kind exactly when an entry names it |
| Economy.RegistryRemove | JAILGAME/FirstversionJOHIBB1.py:355-358 | popping an entry and clearing its territory's slot keeps the registry invariant |
| Economy.RegistryMove | JAILGAME/FirstversionJOHIBB1.py:541-546 | moving an entry to a territory without a business keeps the registry invariant |
| Economy.IncomeClear | JAILGAME/FirstversionJOHIBB1.py:356-358 | clearing a slot and zeroing its income keeps every income consistent with its business and roster |
| Economy.IncomeSet | JAILGAME/FirstversionJOHIBB1.py:446-448 | setting a business and its income for the territory's roster size keeps incomes consistent |
| Economy.IncomeResize | JAILGAME/FirstversionJOHIBB1.py:466-469 | replacing a roster and recomputing the income only where a business exists keeps incomes consistent |
| Economy.OwnedIn | JAILGAME/FirstversionJOHIBB1.py:427 | the change-location and assign-member dialogs list exactly the owned territories, and a selection from a list in dictionary order is itself in dictionary order |
| Economy.FreeIn | JAILGAME/FirstversionJOHIBB1.py:440 | the assign-business and relocate dialogs list exactly the owned territories with no business, and a selection from a list in dictionary order is itself in dictionary order |
| Economy.OwnedCountries | JAILGAME/FirstversionJOHIBB1.py:460 | the owned-territory list the dialogs index row by row is in strictly increasing dictionary position, so row i is the i-th owned territory in dictionary order |
| Economy.FreeCountries | JAILGAME/FirstversionJOHIBB1.py:536 | the free-territory list the dialogs index row by row is in strictly increasing dictionary position |
| Economy.RowsLocateMembers | JAILGAME/FirstversionJOHIBB1.py:585-590 | the members list has one row per pool member and per assigned member, and every row's (member, territory, index) names that member's place |
| FullData.RouteOf | JAILGAME/FirstversionJOHIBB1.py:299-657 | defines the branch a click takes: the first raised flag in the order of the `if/elif` chain, the map when none is raised |
| FullData.RaisedFlagBoundsRoute | JAILGAME/FirstversionJOHIBB1.py:299-657 | a raised flag receives the click unless a flag earlier in the chain is raised too |
| FullData.FirstRaisedFlagWins | JAILGAME/FirstversionJOHIBB1.py:299-657 | the branch taken has its flag raised, and every earlier branch has its flag down |
| FullData.MapOnlyWhenNoFlag | JAILGAME/FirstversionJOHIBB1.py:657-678 | the map branch runs exactly when no dialog or panel flag is raised |
| FullData.ConfirmationsShadowTheirDialogs | JAILGAME/FirstversionJOHIBB1.py:481-533 | with the bank dialog still open, the borrow confirmation takes the click; with the profile still open, the sell confirmation does |
| FullData.TerritoryAt | JAILGAME/FirstversionJOHIBB1.py:668-678 | a map click selects the first territory in dictionary order whose polygon holds the point (the outlines overlap, so the order matters), with every earlier territory's polygon not holding it, or none when no polygon holds it |
| FullGame.OwnedAfterRemove | JAILGAME/FirstversionJOHIBB1.py:355 | removing an entry keeps every business on an owned territory |
| FullGame.OwnedAfterAdd | JAILGAME/FirstversionJOHIBB1.py:449 | appending an entry for an owned territory keeps every business on an owned territory |
| FullGame.OwnedAfterMove | JAILGAME/FirstversionJOHIBB1.py:545 | moving an entry to an owned territory keeps every business on an owned territory |
| FullGame.MovedMember | JAILGAME/FirstversionJOHIBB1.py:465-466 | moving a pool member to a roster keeps the bag of all members and their number |
| FullGame.ReturnedMember | JAILGAME/FirstversionJOHIBB1.py:519-520 | moving a roster member to the end of the pool keeps the bag of all members and their number |
| FullGame.IncomeNonNegative | JAILGAME/FirstversionJOHIBB1.py:687-692 | with consistent incomes, a pass of income collection never lowers money |
| FullGame.GameState.constructor | JAILGAME/FirstversionJOHIBB1.py:156-191 | the start state: no money, debt or interest, the first purchase pending with no HQ, nothing owned, empty pool, rosters and registry, every flag down, not paused, day 0, all clocks at the start time |
| FullGame.GameState.ConfirmPurchase | JAILGAME/FirstversionJOHIBB1.py:301-316 | the cost is 0 while the first purchase is pending and the listed cost afterwards; when money covers it, money drops by exactly that, the territory becomes owned, and the first purchase clears the flag and sets the HQ; otherwise nothing changes |
| FullGame.GameState.HireMember | JAILGAME/FirstversionJOHIBB1.py:327-336 | with money of at least 150, exactly 150 is paid and exactly one member, named from the current sizes, joins the end of the pool; otherwise nothing changes; rosters untouched |
| FullGame.GameState.SellMember | JAILGAME/FirstversionJOHIBB1.py:340-345 | exactly 90 is added and the member at the index leaves the pool; rosters untouched; the bag of all members loses exactly that member |
| FullGame.GameState.CancelBusiness | JAILGAME/FirstversionJOHIBB1.py:352-360 | exactly 700 is paid, the entry is popped, its territory loses the business and its income drops to 0 |
| FullGame.GameState.Borrow | JAILGAME/FirstversionJOHIBB1.py:370-372 | the amount is added to money and to the debt alike |
| FullGame.GameState.RepayDebt | JAILGAME/FirstversionJOHIBB1.py:498-508 | with a debt and money covering debt plus interest, money drops by that sum and both become zero; otherwise nothing changes |
| FullGame.GameState.PayBusinessFee | JAILGAME/FirstversionJOHIBB1.py:381-391 | exactly 500 is paid when money covers it, and the result says whether it did |
| FullGame.GameState.AssignBusiness | JAILGAME/FirstversionJOHIBB1.py:443-449 | the territory's slot gets the kind, its income is computed for its roster size, the entry is appended, and the invariant is kept |
| FullGame.GameState.AssignMember | JAILGAME/FirstversionJOHIBB1.py:463-470 | pool member j moves to the end of the territory's roster, the income follows the new roster size where a business exists, and the bag and number of all members are unchanged |
| FullGame.GameState.UnassignMember | JAILGAME/FirstversionJOHIBB1.py:519-524 | roster member i moves to the end of the pool, the income follows the new roster size where a business exists, and the bag and number of all members are unchanged |
| FullGame.GameState.RelocateBusiness | JAILGAME/FirstversionJOHIBB1.py:539-549 | the entry moves to the new territory; the old territory loses the business and its income drops to 0; the new one gets the kind and its income; the number of entries is unchanged |
| FullGame.GameState.ListMembers | JAILGAME/FirstversionJOHIBB1.py:585-590 | the members list is the pool rows followed by each territory's roster rows, in dictionary order |
| FullGame.GameState.CollectIncome | JAILGAME/FirstversionJOHIBB1.py:687-692 | after at least a second, money grows by exactly the income of every owned territory running a business, once, and the clock restarts; otherwise nothing changes; money never drops |
| FullGame.GameState.ChargeInterest | JAILGAME/FirstversionJOHIBB1.py:694-699 | with a debt and at least a second passed, the interest owed grows by exactly the tiered sum and the clock restarts; otherwise nothing changes |
| FullGame.GameState.UpdateDate | JAILGAME/FirstversionJOHIBB1.py:245-251 | after five seconds or more the date advances by the whole number of five-second intervals elapsed, the remainder is discarded, and the clock restarts at now |
| FullGame.GameState.Tick | JAILGAME/FirstversionJOHIBB1.py:681-700 | while paused nothing changes; otherwise income, interest and date advance as above and the debt is unchanged; money and interest never drop |
| FullGame.GameState.OnPurchaseConfirm | JAILGAME/FirstversionJOHIBB1.py:299-319 | Yes with a territory named performs the purchase and closes the confirmation; No closes it and changes nothing else; any other click does nothing |
| FullGame.GameState.OnHireFirstConfirm | JAILGAME/FirstversionJOHIBB1.py:320-325 | Yes hands the click chain to the second confirmation; No closes; nothing else changes |
| FullGame.GameState.OnHireSecondConfirm | JAILGAME/FirstversionJOHIBB1.py:326-338 | Yes performs the hire; Yes and No close the confirmation; No and other clicks leave money and pool alone |
| FullGame.GameState.OnSellConfirm | JAILGAME/FirstversionJOHIBB1.py:339-350 | Yes sells the pool member at the carried index, and fails with nothing changed when that index is out of the pool; Yes and No close the confirmation |
| FullGame.GameState.OnCancelConfirm | JAILGAME/FirstversionJOHIBB1.py:351-368 | Yes with money of at least 700 and some business cancels the carried entry, and fails with nothing changed when the index is missing or stale; otherwise no money or businesses change; Yes and No close |
| FullGame.GameState.OnBorrowConfirm | JAILGAME/FirstversionJOHIBB1.py:369-379 | Yes borrows the carried amount; Yes and No close the confirmation and reset the amount |
| FullGame.GameState.OnChooseBusiness | JAILGAME/FirstversionJOHIBB1.py:380-424 | a kind button takes the 500 fee when money covers it and then opens the territory choice for that kind; without the money it only closes; other clicks change nothing |
| FullGame.GameState.OnChangeLocation | JAILGAME/FirstversionJOHIBB1.py:425-437 | a click on row i of the owned territories makes that territory the HQ and closes; a click outside the dialog only closes |
| FullGame.GameState.OnAssignBusiness | JAILGAME/FirstversionJOHIBB1.py:438-457 | a row of the free owned territories places the carried kind there; a row or an outside click closes and clears the kind, with no refund of the fee |
| FullGame.GameState.OnAssignMember | JAILGAME/FirstversionJOHIBB1.py:458-478 | a row of the owned territories moves the carried pool member there, and fails with nothing changed when the index is stale; the bag and number of members never change |
| FullGame.GameState.OnBankDialog | JAILGAME/FirstversionJOHIBB1.py:479-511 | an amount button opens the borrow confirmation above the still-open dialog; Pay Debt repays and closes; Cancel or a click outside closes; nothing but repayment changes the bank |
| FullGame.GameState.UnassignFromProfile | JAILGAME/FirstversionJOHIBB1.py:518-530 | with a valid index the member returns to the pool and the profile closes; with a missing or stale index it fails with nothing changed |
| FullGame.GameState.OnProfile | JAILGAME/FirstversionJOHIBB1.py:512-533 | Close closes; Unassign on an assigned member unassigns it; Sell on a pool member opens the sell confirmation above the still-open profile; the bag and number of members never change |
| FullGame.GameState.OnRelocate | JAILGAME/FirstversionJOHIBB1.py:534-557 | a row of the free owned territories moves the carried business there, and fails with nothing changed when the index is stale; a row or an outside click closes |
| FullGame.GameState.OnMembersTab | JAILGAME/FirstversionJOHIBB1.py:582-615 | the Buy button opens the first hire confirmation; a name or profile row opens the profile of a member whose place it names; Assign and "-" rows only for pool members, carrying an index that is in the pool |
| FullGame.GameState.OnBusinessTab | JAILGAME/FirstversionJOHIBB1.py:616-634 | the choose-business dialog only opens while some territory is owned; relocate and cancel carry an index that is in the registry |
| FullGame.GameState.OnGangPanel | JAILGAME/FirstversionJOHIBB1.py:558-643 | Close closes and resets the tab; tab buttons switch tabs; otherwise the current tab's rules apply, and only on the placeholder tabs does a click outside the panel close it |
| FullGame.GameState.OnCountryPanel | JAILGAME/FirstversionJOHIBB1.py:644-656 | Close or an outside click closes the panel; Buy opens the purchase confirmation only for a territory not owned |
| FullGame.GameState.OnMap | JAILGAME/FirstversionJOHIBB1.py:657-678 | Gang opens the gang panel, Bank the bank dialog; any other click selects the territory under the cursor and opens its panel, or clears the selection |
| FullGame.GameState.HandleClick | JAILGAME/FirstversionJOHIBB1.py:290-678 | the pause button toggles the pause; while paused nothing else changes; a failing list access leaves everything but the pause unchanged; no click gives up a territory or breaks the invariant |
| FullGame.GameState.OnPurchaseOrHire | JAILGAME/FirstversionJOHIBB1.py:299-338 | the first three branches keep the invariant and give up no territory |
| FullGame.GameState.OnSaleCancelOrBorrow | JAILGAME/FirstversionJOHIBB1.py:339-379 | the sell, cancel and borrow branches keep the invariant, and a failure changes nothing |
| FullGame.GameState.OnBusinessOrLocation | JAILGAME/FirstversionJOHIBB1.py:380-457 | the choose, change-location and assign-business branches keep the invariant |
| FullGame.GameState.OnMemberBankOrRelocate | JAILGAME/FirstversionJOHIBB1.py:458-557 | the assign-member, bank, profile and relocate branches keep the invariant, and a failure changes nothing |
| FullGame.GameState.OnPanelOrMap | JAILGAME/FirstversionJOHIBB1.py:558-678 | the gang panel, territory panel and map branches change no bookkeeping |
| SimpleGame.SelectedAt | JAILGAME/SecondversionWILL.py:150-165 | a click selects the first territory in dictionary order whose outline holds the point, or none when no outline holds it |
| SimpleGame.TaxDue | JAILGAME/SecondversionWILL.py:170 | defines the tax a collection adds: the sum of `tax` over the owned territories |
| SimpleGame.TaxDueMonotone | JAILGAME/SecondversionWILL.py:170 | owning more never lowers the tax collected |
| SimpleGame.TaxDueAfterPurchase | JAILGAME/SecondversionWILL.py:170 | buying a territory adds exactly its tax, once, to the tax collected |
| SimpleGame.TaxDueAtMost52 | JAILGAME/SecondversionWILL.py:170 | no set of territories yields more than 52 a second |
| SimpleGame.SimpleState.constructor | JAILGAME/SecondversionWILL.py:135-137 | the start state: money 100, nothing owned, nothing selected, the tax clock at the start time |
| SimpleGame.SimpleState.Click | JAILGAME/SecondversionWILL.py:148-165 | the selection becomes SelectedAt of the point; a selected territory not owned is bought when money covers its price, dropping money by exactly the price; otherwise money and ownership are unchanged; money stays non-negative and nothing is given up |
| SimpleGame.SimpleState.TaxTick | JAILGAME/SecondversionWILL.py:168-172 | after at least a second, money grows by exactly the tax of the owned territories, once however long it has been, and the clock restarts; otherwise nothing changes |

## Left out

- Rendering, pygame initialisation, image and font loading, tooltips, and the button
  rectangles (`FirstversionJOHIBB1.py:5-48` and `702-1292`, `SecondversionWILL.py:4-44`
  and `174-230`). A click is an abstract `Click` naming the control it lands on.
  `Background` is a click on no control, carrying its position and the screen area it
  falls in. Only the territory polygons stay geometric.
- Which screen area a background click falls in is an input of the model, not computed
  from the dialog rectangles. Neither is the fact that a control is drawn over no
  territory polygon.
- The wall clock (`time.time()`) is the parameter `now`, and the frame rate is not modelled.
- The date is a day counter from 2 December 2010. `strftime` formatting is left out.
- The message text and its display timer are left out: they are feedback only.
- `reputation` (always 0), `population` (display only), and the drawn content of the
  Vehicle and Gang Diplomacy tabs are left out. The tabs themselves are modelled: a click
  outside the gang panel closes it while one of them is shown.
- Quitting (window close, Escape) is left out.
- Floating point: money, interest and `xinters` are exact reals. Business income is the
  exact integer `base * (10 + n) / 10`. `Economy.IncomeTruncates` proves this is the
  truncated real formula, and the model keeps that exact value. The source truncates a
  double-precision product, which for some roster sizes lies just below the whole number,
  so its income can be one unit lower than the model's. For example, Gun Production with
  13 members: `100 * (1 + 13 * 0.1)` is 229.99999999999997 in double precision, so the
  source stores 229 where `Economy.BusinessIncome` gives 230. Among rosters of fewer than
  60 members this happens at 13, 31 and 36 members for Gun Production (229, 409, 459) and
  Local Business Takeover (114, 204, 229); Drug Production and Tax Frauds are not affected.
- A Python exception ends the game. Popping at a stale index after an earlier removal,
  or with a missing index, raises one. The model returns `ok == false` with the state
  unchanged. The process exit itself is not modelled.
- In the simple version, a click in the first frame, before `current_time` is first
  assigned, would raise a `NameError` when it buys or fails to buy. The model does not
  represent this.
- FullGame.GameState.HandleClick: its contract states the pause toggle, the failure
  case, the invariant and that no territory is given up; which branch's effect a click
  has is stated on each branch's own method and on `RouteOf`, not repeated here.
- FullGame.GameState.OnPurchaseOrHire, OnSaleCancelOrBorrow, OnBusinessOrLocation,
  OnMemberBankOrRelocate, OnPanelOrMap: these group dispatchers state only the invariant
  and the failure case; the effects are on the branch methods they call.
- FullData.Polygon, SimpleGame.Outline: the outlines are the data of the scripts;
  nothing is proved about their shape beyond being non-empty.
