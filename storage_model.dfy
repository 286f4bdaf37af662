/**
 * Entities and derived quantities of the storage optimizer (optimize_storage.py):
 * the input and output records, the constants computed from the storage
 * configuration, the solver's per-interval assignment, and the feasibility
 * predicate that states the constraints of the MILP directly.
 *
 * Quantities are mathematical reals; timestamps are integer minute offsets
 * from the start of the series (2024-01-01T00:00).
 */
module StorageModel {

  /** One price sample: `value` is in EUR/MWh, `date` in minutes after the series start. */
  datatype DataPoint = DataPoint(date: int, value: real)

  /** A price series with its unit. */
  datatype InputData = InputData(unit: string, data: seq<DataPoint>)

  datatype Action = Buy | Sell | Hold

  /** One row of the schedule returned to the caller. */
  datatype OutputDataPoint = OutputDataPoint(date: int, netFlowKWh: real, socKWh: real, action: Action, price: real)

  datatype OutputData = OutputData(totalCycles: int, revenue: int, data: seq<OutputDataPoint>)

  /** The ways the optimizer fails instead of producing a schedule. */
  datatype Error =
    | EmptySeries   // the formulation indexes SoC[0] of an empty variable list
    | ZeroCapacity  // the cycle count divides by a zero capacity

  // Default storage configuration of the optimizer's signature.
  const DefaultPowerLimit: real := 500.0
  const DefaultCapacity: real := 1000.0
  const DefaultInitialSoC: real := 0.0
  const DefaultIntervalMinutes: int := 60

  /** Fraction of an hour covered by one interval. */
  function IntervalFraction(intervalMinutes: int): (f: real)
    ensures f * 60.0 == intervalMinutes as real
    ensures intervalMinutes == 60 ==> f == 1.0
  {
    intervalMinutes as real / 60.0
  }

  /** Energy (kWh) the asset can move in one interval at its power rating (kW). */
  function PowerLimitPerInterval(powerLimit: real, intervalMinutes: int): (p: real)
    ensures p * 60.0 == powerLimit * intervalMinutes as real
    ensures powerLimit == 0.0 ==> p == 0.0
    ensures powerLimit >= 0.0 && intervalMinutes >= 0 ==> p >= 0.0
  {
    powerLimit * IntervalFraction(intervalMinutes)
  }

  /** Prices converted from EUR/MWh to EUR/kWh, in input order. */
  function Prices(data: InputData): (ps: seq<real>)
    ensures |ps| == |data.data|
    ensures forall i :: 0 <= i < |ps| ==> ps[i] * 1000.0 == data.data[i].value
  {
    seq(|data.data|, i requires 0 <= i < |data.data| => data.data[i].value / 1000.0)
  }

  /** Timestamps of the input, in input order. */
  function Dates(data: InputData): (ds: seq<int>)
    ensures |ds| == |data.data|
    ensures forall i :: 0 <= i < |ds| ==> ds[i] == data.data[i].date
  {
    seq(|data.data|, i requires 0 <= i < |data.data| => data.data[i].date)
  }

  /**
   * The values the solver assigns, for one interval t, to the variables
   * ChargeAmount_t, DischargeAmount_t, NetFlow_t, SoC_t, Charge_t and Discharge_t.
   */
  datatype VarValues = VarValues(
    charge: real, discharge: real, netFlow: real, soc: real,
    chargeFlag: real, dischargeFlag: real)

  predicate IsBinary(x: real) {
    x == 0.0 || x == 1.0
  }

  /** The bounds and categories with which the six variables of one interval are declared. */
  predicate WithinBounds(v: VarValues, p: real, capacity: real) {
    && 0.0 <= v.charge <= p
    && 0.0 <= v.discharge <= p
    && -p <= v.netFlow <= p
    && 0.0 <= v.soc <= capacity
    && IsBinary(v.chargeFlag)
    && IsBinary(v.dischargeFlag)
  }

  /** The constraints that concern one interval alone: net flow, action links, exclusivity, SoC limits. */
  predicate IntervalConstraints(v: VarValues, p: real, capacity: real) {
    && v.netFlow == v.charge - v.discharge
    && v.charge <= p * v.chargeFlag
    && v.discharge <= p * v.dischargeFlag
    && v.chargeFlag + v.dischargeFlag <= 1.0
    && v.soc >= 0.0
    && v.soc <= capacity
  }

  /** The state of charge of interval t follows from that of interval t-1 (or from the initial SoC). */
  predicate Balanced(sol: seq<VarValues>, initialSoc: real, t: int)
    requires 0 <= t < |sol|
  {
    if t == 0 then sol[0].soc == initialSoc + sol[0].netFlow
    else sol[t].soc == sol[t - 1].soc + sol[t].netFlow
  }

  /**
   * An assignment satisfies the whole MILP: there is at least one interval
   * (the formulation refers to SoC_0), every variable lies in its declared
   * domain, the state-of-charge dynamics hold, and so do the per-interval
   * constraints. `p` is the per-interval energy limit.
   */
  predicate Feasible(p: real, capacity: real, initialSoc: real, sol: seq<VarValues>) {
    && |sol| >= 1
    && (forall t :: 0 <= t < |sol| ==> WithinBounds(sol[t], p, capacity))
    && (forall t :: 0 <= t < |sol| ==> Balanced(sol, initialSoc, t))
    && (forall t :: 0 <= t < |sol| ==> IntervalConstraints(sol[t], p, capacity))
  }

  /** Sum of a sequence, added from the left as Python's `sum` does. */
  function Sum(s: seq<real>): real {
    if |s| == 0 then 0.0 else Sum(s[..|s| - 1]) + s[|s| - 1]
  }

  function Charges(sol: seq<VarValues>): seq<real> {
    seq(|sol|, t requires 0 <= t < |sol| => sol[t].charge)
  }

  function Discharges(sol: seq<VarValues>): seq<real> {
    seq(|sol|, t requires 0 <= t < |sol| => sol[t].discharge)
  }

  function NetFlows(sol: seq<VarValues>): seq<real> {
    seq(|sol|, t requires 0 <= t < |sol| => sol[t].netFlow)
  }

  /** Profit of each interval: sell revenue minus buy cost at that interval's price. */
  function Profits(prices: seq<real>, sol: seq<VarValues>): seq<real>
    requires |sol| == |prices|
  {
    seq(|sol|, t requires 0 <= t < |sol| => -sol[t].charge * prices[t] + sol[t].discharge * prices[t])
  }

  function TotalProfit(prices: seq<real>, sol: seq<VarValues>): real
    requires |sol| == |prices|
  {
    Sum(Profits(prices, sol))
  }

  function TotalCharge(sol: seq<VarValues>): real {
    Sum(Charges(sol))
  }

  function TotalDischarge(sol: seq<VarValues>): real {
    Sum(Discharges(sol))
  }

  // ----- facts about Sum -----

  lemma SumStep(s: seq<real>, k: int)
    requires 0 <= k < |s|
    ensures Sum(s[..k + 1]) == Sum(s[..k]) + s[k]
  {
    assert s[..k + 1][..k] == s[..k];
  }

  lemma {:induction false} SumOfZeros(s: seq<real>)
    requires forall i :: 0 <= i < |s| ==> s[i] == 0.0
    ensures Sum(s) == 0.0
  {
    if |s| > 0 {
      SumOfZeros(s[..|s| - 1]);
    }
  }

  lemma {:induction false} SumNonNegative(s: seq<real>)
    requires forall i :: 0 <= i < |s| ==> s[i] >= 0.0
    ensures Sum(s) >= 0.0
  {
    if |s| > 0 {
      SumNonNegative(s[..|s| - 1]);
    }
  }
}
