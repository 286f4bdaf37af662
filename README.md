# Battery arbitrage scheduler — Dafny model

This project models the two pieces of logic at the core of a battery-storage
revenue calculator:

- **Spot-price preparation** (`convert_spot_data`). A raw series of nullable
  prices becomes a list of timestamped price points in EUR/MWh. Null entries
  are dropped. Each kept price keeps the timestamp of its original index,
  `start + i * interval` minutes.
- **Storage scheduling** (`optimize_storage`). The optimizer builds a
  mixed-integer linear program (MILP) over six variable families per interval:
  charge amount, discharge amount, net flow, state of charge (SoC), and a
  charge and a discharge flag. A foreign solver (CBC) solves it. The solved
  assignment then becomes a BUY/SELL/HOLD schedule, a floored cycle count and
  a floored revenue.

Modules:

- `Wrappers` (wrappers.dfy): `Option` and `Result`.
- `StorageModel` (storage_model.dfy): the records `DataPoint`, `InputData`,
  `OutputDataPoint` and `OutputData`; the derived constants; `VarValues`, the
  values the solver gives one interval's six variables; and `Feasible`, which
  states every bound and constraint of the program directly.
- `Formulation` (formulation.dfy): the program as data. It has variable
  declarations with domains, a linear objective and a list of linear
  constraints. `Formulate` builds the constraint list in loops, in the order
  the source adds the constraints. `FormulationMeaning` proves that an
  assignment satisfies this program exactly when `Feasible` holds.
- `Extraction` (extraction.dfy): labelling, the schedule loop, cycles and
  revenue, and what they mean for a feasible assignment.
- `OptimizeStorage` (optimize_storage.dfy): the optimizer end to end. The
  solver's assignment is a parameter.
- `SpotConversion` (convert_spot_data.dfy): the price-series preparation.

Modelling conventions:

- Quantities are mathematical reals. `math.floor` is `.Floor`.
- A timestamp is an integer count of minutes after 2024-01-01T00:00.
- The solver is not modelled. `OptimizeStorage` takes its answer `solved` as
  input, with one `VarValues` per interval. Lemmas about solver output take
  `Feasible` as a hypothesis. Nothing here claims the answer is optimal.

Edge cases the code handles in ways that are easy to miss:

- **Empty series.** An empty or all-null series does not give an empty
  schedule. The conversion step does give an empty list for it
  (`AllNullGivesEmpty`). The optimizer then refers to `SoC[0]` while
  formulating (optimize_storage.py:81) and raises an IndexError. The model
  returns `Err(EmptySeries)`.
- **Zero power limit.** A zero power limit does not force HOLD everywhere. A
  flag may be 1 while the flow is 0, and that interval is labelled BUY.
  `ZeroPowerMayStillBuy` shows such an assignment. `ZeroPowerLimit` proves
  what does hold: zero flows, a constant SoC, revenue 0 and 0 cycles.
- **Zero capacity.** With at least one interval and a capacity of 0, the
  cycle count divides by zero (optimize_storage.py:150). The model returns
  `Err(ZeroCapacity)`.

## Model

| member | source | states |
|---|---|---|
| StorageModel.IntervalFraction | optimize_storage.py:53 | the interval fraction times 60 is the interval length in minutes; a 60-minute interval gives 1 |
| StorageModel.PowerLimitPerInterval | optimize_storage.py:53-54 | the per-interval energy limit P satisfies 60·P = power_limit·interval_minutes; it is 0 when power_limit is 0 and non-negative for non-negative inputs |
| StorageModel.Prices | optimize_storage.py:57 | one price per input point, in input order, each 1/1000 of that point's EUR/MWh value |
| StorageModel.Feasible | optimize_storage.py:65-103 | an assignment is feasible iff N ≥ 1, every variable is in its declared domain, SoC_0 = initial_soc + NetFlow_0, SoC_t = SoC_{t−1} + NetFlow_t for t ≥ 1, and every interval meets the net-flow, link, exclusivity and SoC-limit constraints; FormulationMeaning proves this equals satisfying the built program |
| StorageModel.Dates | optimize_storage.py:58 | one date per input point, in input order, equal to that point's date |
| Formulation.Formulate | optimize_storage.py:52-103 | fails with EmptySeries exactly when the series is empty; otherwise it returns the program with the declared variables, the profit objective and the constraints in source order, and an assignment satisfies that program iff it is Feasible |
| Formulation.Program | optimize_storage.py:62-103 | the program handed to the solver: the six declared families, the profit objective and the constraints in source order; FormulationMeaning and ObjectiveIsProfit prove what it means |
| Formulation.FormulationMeaning | optimize_storage.py:65-103 | for N ≥ 1 intervals, an assignment satisfies every variable domain and every constraint of the formulated program iff Feasible holds |
| Formulation.VariableDeclsMeaning | optimize_storage.py:65-70 | all six variable families are in their domains iff charge and discharge lie in [0, P], net flow in [−P, P], SoC in [0, capacity] and both flags are 0 or 1 |
| Formulation.InitialSoCMeaning | optimize_storage.py:81 | the first constraint holds iff SoC_0 = initial_soc + NetFlow_0 |
| Formulation.DynamicsBlockMeaning | optimize_storage.py:84-85 | the dynamics constraints hold iff SoC_t = SoC_{t−1} + NetFlow_t for every t ≥ 1 |
| Formulation.NetFlowBlockMeaning | optimize_storage.py:88-89 | the net-flow constraints hold iff NetFlow_t = ChargeAmount_t − DischargeAmount_t for every t |
| Formulation.LinkBlockMeaning | optimize_storage.py:92-98 | the link constraints hold iff, for every t, charge ≤ P·Charge_t, discharge ≤ P·Discharge_t and Charge_t + Discharge_t ≤ 1 |
| Formulation.SoCBlockMeaning | optimize_storage.py:101-103 | the SoC-limit constraints hold iff 0 ≤ SoC_t ≤ capacity for every t |
| Formulation.ObjectiveIsProfit | optimize_storage.py:73-76 | the objective evaluated at any assignment equals the total profit Σ (−charge_t·price_t + discharge_t·price_t) that the extractor sums |
| Extraction.ActionOf | optimize_storage.py:134-138 | BUY when the charge flag is exactly 1, else SELL when the discharge flag is exactly 1, else HOLD; ActionMatchesFlags proves that under binary, exclusive flags the label names exactly the flag that is set |
| Extraction.Entry | optimize_storage.py:139-145 | entry i carries date_i, NetFlow_i, SoC_i, the label of interval i and value_i/1000; ScheduleConsistent proves its SoC and label agree with the assignment's dynamics and flags |
| Extraction.Schedule | optimize_storage.py:132-145 | one entry per interval in input order; BuildSchedule computes it and ScheduleConsistent states what each entry means |
| Extraction.TotalCycles | optimize_storage.py:148-150 | floor(min(Σcharge, Σdischarge)/capacity); CyclesNonNegative proves it is ≥ 0 for feasible flows and a positive capacity, and ZeroPowerLimit that it is 0 without power |
| Extraction.Revenue | optimize_storage.py:126-129 | floor of Σ price_t·(discharge_t − charge_t); RevenueIsFlooredObjective proves it is the floored objective, ZeroPowerLimit that it is 0 without power |
| Extraction.BuildSchedule | optimize_storage.py:132-145 | the loop returns exactly one entry per interval, in input order, each with the interval's date, net flow, SoC, label and price |
| Extraction.ScheduleConsistent | optimize_storage.py:132-145 | for a feasible assignment, entry t keeps input date t and price value_t/1000; its SoC is initial_soc plus the schedule's net flows up to t; its label is BUY, SELL or HOLD exactly as the flags say |
| Extraction.ActionMatchesFlags | optimize_storage.py:134-138 | with binary, exclusive flags: BUY iff the charge flag is 1, SELL iff the discharge flag is 1, HOLD iff both are 0 |
| Extraction.ActionBoundsFlow | optimize_storage.py:94-98 | in a feasible assignment no interval both charges and discharges; BUY has no discharge, SELL no charge, HOLD no flow at all |
| Extraction.SoCIsPrefixSum | optimize_storage.py:81-85 | for a feasible assignment, SoC_t = initial_soc + Σ_{k≤t} NetFlow_k |
| Extraction.EnergyBalance | optimize_storage.py:81-103 | for a feasible assignment, total charge − total discharge = final SoC − initial_soc, which lies in [−initial_soc, capacity − initial_soc] |
| Extraction.CyclesNonNegative | optimize_storage.py:148-150 | for a feasible assignment and capacity > 0, floor(min(Σcharge, Σdischarge)/capacity) ≥ 0 |
| Extraction.RevenueIsFlooredObjective | optimize_storage.py:126-152 | the revenue equals the floor of the objective the solver maximizes, evaluated at its assignment |
| Extraction.ZeroPowerLimit | optimize_storage.py:65-67 | with power_limit = 0, every feasible assignment has zero charge, discharge and net flow, SoC_t = initial_soc for all t, revenue 0, and 0 cycles when capacity ≠ 0 |
| Extraction.ZeroPowerMayStillBuy | optimize_storage.py:94-98 | with power_limit = 0, an assignment with charge flag 1 and zero flow is feasible and is labelled BUY |
| Extraction.AlternatingPricesExample | optimize_storage.py:65-152 | for prices 10, 50, 10, 50 EUR/MWh with 100 kW and 100 kWh, buying 100 kWh at each low price and selling it at the next high price is feasible, is labelled BUY, SELL, BUY, SELL, earns revenue 8 and counts 2 cycles |
| OptimizeStorage.OptimizeStorage | optimize_storage.py:31-152 | empty series → EmptySeries; otherwise capacity 0 → ZeroCapacity; otherwise the schedule has exactly N entries (date_i, NetFlow_i, SoC_i, label_i, value_i/1000) in input order, total_cycles = floor(min(Σcharge, Σdischarge)/capacity) and revenue = floor of the objective at the assignment |
| OptimizeStorage.OptimizeStorageWithDefaults | optimize_storage.py:31 | with the default configuration (500 kW, 1000 kWh, initial SoC 0, 60 minutes) only an empty series fails; otherwise cycles use capacity 1000, revenue is the floored objective and the schedule is Schedule |
| SpotConversion.ConvertSpotData | convert_spot_data.py:13-40 | the loop returns unit "EUR/MWh" and the points that Formatted describes for the series and its interval |
| SpotConversion.Formatted | convert_spot_data.py:21-35 | the points of a raw series; FormattedAt, FormattedValues, FormattedLength, AllNullGivesEmpty and TimestampsIncreasing prove it is the non-null entries in order, each stamped with its original index times the interval |
| SpotConversion.FormattedAt | convert_spot_data.py:21-35 | output point k comes from the k-th non-null input index i: it has timestamp i·interval and value data[i], and there is one output point per non-null index |
| SpotConversion.NonNullIndicesIncreasing | convert_spot_data.py:21-35 | the kept indices are in range and strictly increasing, so output order is input order |
| SpotConversion.NonNullIndicesExact | convert_spot_data.py:21-24 | an index is kept iff its entry is not null |
| SpotConversion.FormattedValues | convert_spot_data.py:21-35 | the output values equal the input with null entries removed, in order and unchanged |
| SpotConversion.FormattedLength | convert_spot_data.py:21-24 | the output length equals the number of non-null inputs |
| SpotConversion.AllNullGivesEmpty | convert_spot_data.py:21-24 | an empty or all-null series gives no data points |
| SpotConversion.TimestampsIncreasing | convert_spot_data.py:21-27 | with a positive interval, the output timestamps are strictly increasing |

## Left out

- The MILP solve (optimize_storage.py:62, 106-107) calls the foreign CBC solver through pulp. The model takes its answer as the input `solved`. It does not model optimality or the solver's numeric tolerance.
- The solver status check (optimize_storage.py:110-115) does nothing in either branch. The model has no status input. A non-optimal answer flows on unchanged, as in the source.
- `varValue` can be None when no solution exists. The model has only real values.
- Every input is dumped to `out/__input__` as JSON (optimize_storage.py:33-50). The `__main__` blocks of both files do file I/O. All of this is I/O and is left out.
- ISO-8601 formatting with the `.000Z` suffix and Python's `datetime` arithmetic (convert_spot_data.py:18, 27, 31) are left out. A timestamp is the integer minute offset `i * interval` from 2024-01-01T00:00.
- IEEE floating point (rounding, NaN, infinities) is left out. Reals are mathematical, and the flag test `== 1` is exact equality on reals.
- The optimizer's `prob` object is a pulp library object. The model keeps only what is added to it (objective and constraints), built as a local list rather than a mutable object.
- api.py, run_market.py, run_spot_data.py and main.py are HTTP routing, CLI prompts, subprocess calls and file I/O. They are not part of this model. run_market.py does not pass an interval, so it always uses the default of 60 minutes (`DefaultIntervalMinutes`, applied by `OptimizeStorageWithDefaults`).
