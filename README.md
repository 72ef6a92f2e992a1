# Food Business Challenge: the game engine

A model of the turn-based engine of the "Food Business Challenge" game. The
player runs a frozen-treats business for 35 days. On each free day they
choose a market report, a seven-day food-truck commitment or a trolley
commitment with six further daily picks, at one of six locations with one of
three products. The model keeps the engine's state machine over integers:

- `Catalog` (catalog.dfy): locations, products, the pitch (location and
  product) that keys the demand cache, the game's constants, the week/weekday
  calendar, the demand clamp and the two sale formulas.
- `History` (history.dfy): the history row, the seven-row report block, and
  the ledger that ties the history to the cash balance.
- `Engine` (engine.dfy): the class `GameState`, whose fields are the
  session fields the source mutates in place. It has one method per decision
  branch, the end-of-pass block `FinishDay`, and `Step`, which is one pass of
  the page. Its invariant `Valid()` says that at most one commitment counter
  is non-zero and that the mode matches the counters. It also says that every
  cached base equals the pitch's base, that every row is well formed, and that
  the ledger holds.

The Streamlit rerun loop becomes explicit calls to `Step`. Each call gets the
form the player submitted during that pass, if any.

Behaviour kept exactly as the code has it, including its surprising parts:

- The report has no funds check, so cash can go negative.
- The report moves the day by 7 and then the final block adds 1 more while
  the day is before day 35. The pass's `result` is still empty on that path,
  so the "not a report" test at app.py:213 always passes.
- Each of the seven report rows records `-500 // 7 = -72`, so the rows sum to
  -504 while cash drops by 500. The cash balance therefore equals 10000 plus
  the profit column only up to 4/7 per report row. `History.Balanced` states
  the exact relation.
- The trolley sells `int(demand * 0.3)`, which truncates. The model writes it
  as `3 * demand / 10`. The daily demand is `int(base + variation)`, also
  truncated, and is then clamped at 0.
- No decision is ever rejected with an error. A form that is not on the page
  cannot be submitted, so `Step` ignores an input for a form that is not
  shown.

Python's `//` and `%` by 7 round towards minus infinity, which is what Dafny's
`/` and `%` do for a positive divisor. So `Week`, `Weekday` and the report
row's profit use them unchanged.

## Model

| member | source | states |
|---|---|---|
| `Catalog.Weekday` | app.py:56 | the weekday lies in 1..7 and is congruent to the day modulo 7 |
| `Catalog.Week` | app.py:55 | for day >= 1 the week is >= 1, and `(week - 1) * 7 + weekday == day` for every day |
| `Catalog.ClampDemand` | app.py:71 | the daily demand is `max(0, raw)`: never negative, at least the raw draw, and either the raw draw or 0 |
| `Catalog.FoodTruckSold` | app.py:99 | a food truck sells `min(demand, 150)`: at most 150, at most the demand, and one of the two |
| `Catalog.TrolleySold` | app.py:125 | a trolley sells `min(floor(0.3 * demand), 50)`: at most 50, at most 30% of the demand, and either 50 or the largest such count |
| `History.ReportBlockLedger` | app.py:173-182 | a report's seven rows are seven report rows whose profits sum to -504, four less than the 500 the report costs |
| `History.SaleKeepsBalance` | app.py:100-111 | a sale row whose profit is added to cash keeps the ledger relation between cash and history |
| `History.ReportKeepsBalance` | app.py:166-182 | deducting 500 and appending the seven-row block keeps the ledger relation |
| `Engine.GameState.constructor` | app.py:10-31 | a new game starts on day 1 with 10000 cash, an empty history, 35 days, no mode, both counters 0, the day not complete, an empty cache and no report |
| `Engine.GameState.PairDemand` | app.py:59-71 | a pitch's base is cached on first use and never overwritten. Every earlier entry is kept. The demand returned depends only on the pitch and the current day |
| `Engine.GameState.FoodTruckDay` | app.py:95-113 | sells `min(demand, 150)` at the stored pitch, adds `12 * sold` to cash, appends exactly one row whose cash column is the new cash, decrements the food-truck counter and completes the day |
| `Engine.GameState.SellFromTrolley` | app.py:124-137 | one trolley sale: adds `12 * min(floor(0.3 * demand), 50)` to cash and appends exactly one row carrying the new cash |
| `Engine.GameState.TrolleyDay` | app.py:115-139 | the day's fresh pick is sold from as above, the trolley counter is decremented and the day completes |
| `Engine.GameState.BuyReport` | app.py:165-184 | cash drops by exactly 500 with no funds check. Seven report rows are appended for days day..day+6, each with profit `-500 // 7` and the post-deduction cash. The day moves by 7 and is complete |
| `Engine.GameState.StartFoodTruck` | app.py:185-190 | sets the counter to 7, stores the pitch and sets the mode. Nothing else changes: no sale, cash, history or day change |
| `Engine.GameState.StartTrolley` | app.py:191-208 | sets the counter to 6 and the mode, sells once at the chosen pitch and completes the day |
| `Engine.GameState.FinishDay` | app.py:211-222 | before the last day a completed day advances by 1 for any non-report result and is cleared; the mode resets exactly when both counters are 0. Otherwise nothing changes; a completed day on or after day 35 is the end of the game |
| `Engine.GameState.Step` | app.py:93-222 | one pass keeps the invariant. A finished game, or a pass whose form is not submitted, changes nothing. History only grows and the day never goes back. An active food truck takes precedence and sells at its stored pitch. A trolley pick and a trolley start each sell at the chosen pitch, with the counter decremented or set to 6. Every selling pass appends one row carrying the new cash, then moves the day by 1 and clears the flag before day 35, or ends the game. A commitment starts only from the main menu, and a food-truck start changes no day, cash or history. A report deducts 500, appends its seven rows, leaves both counters 0 and no mode, and moves the day by 8 before day 28 or by 7 and ends the game from day 28 on. Only a food-truck start changes the stored pitch, only a report sets the report flag, and cached bases are kept |

## Left out

- The Streamlit page, forms, buttons, radios, `choice_selected`, `st.json`,
  `st.rerun`, the chart and the DataFrames (app.py:1-7, 73-91, 142-162,
  223-226). They are presentation. The rerun loop is modelled as calls to
  `Step`.
- The float base-demand formula: the random weather draw and
  `int(base * factor * weight)` with float weather factors and product
  weights (app.py:19-28, 33-40, 62-65). A game's `baseOf` function, fixed
  at construction, stands for its result. The integer foot-traffic table
  only feeds this formula, so it is left out with it.
- The seeded normal draw (app.py:69-70). Python's string hash is randomised
  per process and the draw is floating point. A game's `draw` function,
  fixed at construction, stands for `int(base + variation)` as a
  deterministic function of the base, the pitch and the day.
- The report's text and the emoji label maps (app.py:42-54, 168-172). They
  are display data. The model keeps only a `reportBought` flag.
- `int(demand * 0.3)` on floats is modelled as the exact `3 * demand / 10`
  in `Catalog.TrolleySold`. The units sold agree on every non-negative
  integer demand. From a demand of 167 on, both cuts are at or above the cap of 50.
  Below it, the double nearest 0.3 lies below 0.3 by less than 2^-54. So the
  float product rounds back to the whole number when `3 * demand / 10` is
  whole, and stays at least 0.1 away from a whole number otherwise.
- The optional `day` argument of `get_pair_demand` (app.py:59, 67-68).
  Every call (app.py:98, 124, 194) uses the default, the current day, so
  `Engine.GameState.PairDemand` always uses the current day.
- The product column of a report row holds the label "Raport" (app.py:178).
  The model represents it by `None`, as it does the empty location column.
