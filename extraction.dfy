/**
 * Turning the solver's assignment into the result of optimize_storage.py:
 * the BUY/SELL/HOLD label of each interval, the schedule in input order,
 * the floored cycle count and the floored revenue, with what they mean for
 * a feasible assignment.
 */
module Extraction {
  import opened StorageModel
  import opened Formulation

  /** BUY when the charge flag is exactly 1, otherwise SELL when the discharge flag is exactly 1, otherwise HOLD. */
  function ActionOf(v: VarValues): Action {
    if v.chargeFlag == 1.0 then Buy
    else if v.dischargeFlag == 1.0 then Sell
    else Hold
  }

  /** The schedule entry of interval i: its date, net flow, state of charge, label and price in EUR/kWh. */
  function Entry(data: InputData, sol: seq<VarValues>, i: int): OutputDataPoint
    requires |sol| == |data.data| && 0 <= i < |sol|
  {
    OutputDataPoint(Dates(data)[i], sol[i].netFlow, sol[i].soc, ActionOf(sol[i]), Prices(data)[i])
  }

  /** One entry per interval, in input order. */
  function Schedule(data: InputData, sol: seq<VarValues>): seq<OutputDataPoint>
    requires |sol| == |data.data|
  {
    seq(|sol|, i requires 0 <= i < |sol| => Entry(data, sol, i))
  }

  /** Builds the schedule by appending one entry per interval. */
  method BuildSchedule(data: InputData, sol: seq<VarValues>) returns (output: seq<OutputDataPoint>)
    requires |sol| == |data.data|
    ensures output == Schedule(data, sol)
  {
    var dates := Dates(data);
    var prices := Prices(data);
    output := [];
    for i := 0 to |sol|
      invariant |output| == i
      invariant forall k :: 0 <= k < i ==> output[k] == Entry(data, sol, k)
    {
      var action := Hold;
      if sol[i].chargeFlag == 1.0 {
        action := Buy;
      } else if sol[i].dischargeFlag == 1.0 {
        action := Sell;
      }
      output := output + [OutputDataPoint(dates[i], sol[i].netFlow, sol[i].soc, action, prices[i])];
    }
  }

  function Min(a: real, b: real): real {
    if a <= b then a else b
  }

  /** Whole charge/discharge round trips: the smaller of the two energy totals over the capacity, truncated. */
  function TotalCycles(sol: seq<VarValues>, capacity: real): int
    requires capacity != 0.0
  {
    (Min(TotalCharge(sol), TotalDischarge(sol)) / capacity).Floor
  }

  /** The total profit at the prices in EUR/kWh, truncated to a whole number. */
  function Revenue(prices: seq<real>, sol: seq<VarValues>): int
    requires |sol| == |prices|
  {
    TotalProfit(prices, sol).Floor
  }

  // ----- properties -----

  /** With binary, exclusive flags the label names exactly the flag that is set, and HOLD when neither is. */
  lemma ActionMatchesFlags(v: VarValues)
    requires IsBinary(v.chargeFlag) && IsBinary(v.dischargeFlag) && v.chargeFlag + v.dischargeFlag <= 1.0
    ensures ActionOf(v) == Buy <==> v.chargeFlag == 1.0
    ensures ActionOf(v) == Sell <==> v.dischargeFlag == 1.0
    ensures ActionOf(v) == Hold <==> v.chargeFlag == 0.0 && v.dischargeFlag == 0.0
  {
  }

  /**
   * In a feasible assignment an interval never charges and discharges at once,
   * and its label bounds its flows: SELL moves no charge, BUY no discharge and
   * HOLD nothing at all.
   */
  lemma ActionBoundsFlow(p: real, capacity: real, initialSoc: real, sol: seq<VarValues>, t: int)
    requires Feasible(p, capacity, initialSoc, sol) && 0 <= t < |sol|
    ensures sol[t].charge == 0.0 || sol[t].discharge == 0.0
    ensures ActionOf(sol[t]) == Buy ==> sol[t].discharge == 0.0 && sol[t].netFlow == sol[t].charge
    ensures ActionOf(sol[t]) == Sell ==> sol[t].charge == 0.0 && sol[t].netFlow == -sol[t].discharge
    ensures ActionOf(sol[t]) == Hold ==> sol[t].charge == 0.0 && sol[t].discharge == 0.0 && sol[t].netFlow == 0.0
  {
    // Dafny proves this from Feasible unaided: a flag of 0 bounds its amount by P * 0,
    // and exclusivity leaves at most one flag at 1.
  }

  /** The state of charge of interval t is the initial SoC plus the net flows up to and including t. */
  lemma {:induction false} SoCIsPrefixSum(p: real, capacity: real, initialSoc: real, sol: seq<VarValues>, t: int)
    requires Feasible(p, capacity, initialSoc, sol) && 0 <= t < |sol|
    ensures sol[t].soc == initialSoc + Sum(NetFlows(sol)[..t + 1])
  {
    assert Balanced(sol, initialSoc, t);
    SumStep(NetFlows(sol), t);
    if t > 0 {
      SoCIsPrefixSum(p, capacity, initialSoc, sol, t - 1);
    }
  }

  lemma {:induction false} NetFlowPrefix(p: real, capacity: real, initialSoc: real, sol: seq<VarValues>, k: int)
    requires Feasible(p, capacity, initialSoc, sol) && 0 <= k <= |sol|
    ensures Sum(NetFlows(sol)[..k]) == Sum(Charges(sol)[..k]) - Sum(Discharges(sol)[..k])
  {
    if k > 0 {
      NetFlowPrefix(p, capacity, initialSoc, sol, k - 1);
      SumStep(NetFlows(sol), k - 1);
      SumStep(Charges(sol), k - 1);
      SumStep(Discharges(sol), k - 1);
      assert IntervalConstraints(sol[k - 1], p, capacity);
    }
  }

  /**
   * Energy balance over the horizon: energy bought minus energy sold equals the
   * gain in state of charge, so it lies between -initial_soc and capacity - initial_soc.
   */
  lemma EnergyBalance(p: real, capacity: real, initialSoc: real, sol: seq<VarValues>)
    requires Feasible(p, capacity, initialSoc, sol)
    ensures TotalCharge(sol) - TotalDischarge(sol) == sol[|sol| - 1].soc - initialSoc
    ensures -initialSoc <= TotalCharge(sol) - TotalDischarge(sol) <= capacity - initialSoc
  {
    var n := |sol|;
    SoCIsPrefixSum(p, capacity, initialSoc, sol, n - 1);
    NetFlowPrefix(p, capacity, initialSoc, sol, n);
    assert NetFlows(sol)[..n] == NetFlows(sol);
    assert Charges(sol)[..n] == Charges(sol);
    assert Discharges(sol)[..n] == Discharges(sol);
    assert WithinBounds(sol[n - 1], p, capacity);
  }

  /** Feasible flows are non-negative, so with a positive capacity the cycle count is never negative. */
  lemma CyclesNonNegative(p: real, capacity: real, initialSoc: real, sol: seq<VarValues>)
    requires Feasible(p, capacity, initialSoc, sol) && capacity > 0.0
    ensures TotalCycles(sol, capacity) >= 0
  {
    assert forall t :: 0 <= t < |sol| ==> WithinBounds(sol[t], p, capacity);
    SumNonNegative(Charges(sol));
    SumNonNegative(Discharges(sol));
    assert Min(TotalCharge(sol), TotalDischarge(sol)) / capacity >= 0.0;
  }

  /** The reported revenue is the objective that the solver maximizes, evaluated at its assignment and truncated. */
  lemma RevenueIsFlooredObjective(prices: seq<real>, sol: seq<VarValues>)
    requires |sol| == |prices|
    ensures Revenue(prices, sol) == Eval(ObjectiveTerms(prices), sol).Floor
  {
    ObjectiveIsProfit(prices, sol);
  }

  /**
   * With no power rating nothing can flow: every amount and net flow is zero,
   * the state of charge stays at its initial value, and revenue and cycles are 0.
   */
  lemma ZeroPowerLimit(powerLimit: real, intervalMinutes: int, capacity: real, initialSoc: real,
                       prices: seq<real>, sol: seq<VarValues>)
    requires powerLimit == 0.0 && |prices| == |sol|
    requires Feasible(PowerLimitPerInterval(powerLimit, intervalMinutes), capacity, initialSoc, sol)
    ensures forall t :: 0 <= t < |sol| ==>
      sol[t].charge == 0.0 && sol[t].discharge == 0.0 && sol[t].netFlow == 0.0 && sol[t].soc == initialSoc
    ensures Revenue(prices, sol) == 0
    ensures capacity != 0.0 ==> TotalCycles(sol, capacity) == 0
  {
    var p := PowerLimitPerInterval(powerLimit, intervalMinutes);
    assert p == 0.0;
    assert forall t :: 0 <= t < |sol| ==> WithinBounds(sol[t], p, capacity);
    forall t | 0 <= t < |sol|
      ensures sol[t].soc == initialSoc
    {
      SoCIsPrefixSum(p, capacity, initialSoc, sol, t);
      SumOfZeros(NetFlows(sol)[..t + 1]);
    }
    SumOfZeros(Profits(prices, sol));
    SumOfZeros(Charges(sol));
    SumOfZeros(Discharges(sol));
  }

  /**
   * A zero power rating does not force HOLD: a feasible assignment may still
   * set a flag, with zero flow, and is then labelled BUY.
   */
  lemma ZeroPowerMayStillBuy()
    ensures var sol := [VarValues(0.0, 0.0, 0.0, 0.0, 1.0, 0.0)];
      Feasible(PowerLimitPerInterval(0.0, 60), DefaultCapacity, 0.0, sol) && ActionOf(sol[0]) == Buy
  {
    var sol := [VarValues(0.0, 0.0, 0.0, 0.0, 1.0, 0.0)];
    assert Balanced(sol, 0.0, 0);
  }

  /**
   * Four hourly prices 10, 50, 10, 50 EUR/MWh with 100 kW and 100 kWh: buying a
   * full interval at each low price and selling it at the next high price is
   * feasible, is labelled BUY, SELL, BUY, SELL, and earns a revenue of 8 EUR.
   */
  lemma AlternatingPricesExample()
    ensures var data := InputData("EUR/MWh", [DataPoint(0, 10.0), DataPoint(60, 50.0), DataPoint(120, 10.0), DataPoint(180, 50.0)]);
      var sol := [VarValues(100.0, 0.0, 100.0, 100.0, 1.0, 0.0), VarValues(0.0, 100.0, -100.0, 0.0, 0.0, 1.0),
                  VarValues(100.0, 0.0, 100.0, 100.0, 1.0, 0.0), VarValues(0.0, 100.0, -100.0, 0.0, 0.0, 1.0)];
      && Feasible(PowerLimitPerInterval(100.0, 60), 100.0, 0.0, sol)
      && ActionOf(sol[0]) == Buy && ActionOf(sol[1]) == Sell && ActionOf(sol[2]) == Buy && ActionOf(sol[3]) == Sell
      && Revenue(Prices(data), sol) == 8
      && TotalCycles(sol, 100.0) == 2
  {
    var data := InputData("EUR/MWh", [DataPoint(0, 10.0), DataPoint(60, 50.0), DataPoint(120, 10.0), DataPoint(180, 50.0)]);
    var prices := Prices(data);
    assert prices == [0.01, 0.05, 0.01, 0.05];
    var sol := [VarValues(100.0, 0.0, 100.0, 100.0, 1.0, 0.0), VarValues(0.0, 100.0, -100.0, 0.0, 0.0, 1.0),
                VarValues(100.0, 0.0, 100.0, 100.0, 1.0, 0.0), VarValues(0.0, 100.0, -100.0, 0.0, 0.0, 1.0)];
    assert forall t :: 0 <= t < 4 ==> Balanced(sol, 0.0, t);
    var profits := Profits(prices, sol);
    assert profits == [-1.0, 5.0, -1.0, 5.0];
    SumOfFour(-1.0, 5.0, -1.0, 5.0);
    assert Charges(sol) == [100.0, 0.0, 100.0, 0.0];
    SumOfFour(100.0, 0.0, 100.0, 0.0);
    assert Discharges(sol) == [0.0, 100.0, 0.0, 100.0];
    SumOfFour(0.0, 100.0, 0.0, 100.0);
  }

  lemma SumOfFour(a: real, b: real, c: real, d: real)
    ensures Sum([a, b, c, d]) == a + b + c + d
  {
    assert [a, b, c, d][..3] == [a, b, c];
    assert [a, b, c][..2] == [a, b];
    assert [a, b][..1] == [a];
    assert [a][..0] == [];
    assert Sum([a]) == a;
    assert Sum([a, b]) == a + b;
    assert Sum([a, b, c]) == a + b + c;
  }

  /**
   * The schedule of a feasible assignment is consistent on its own: each entry's
   * state of charge is the initial SoC plus the schedule's net flows so far, and
   * its label is BUY, SELL or HOLD exactly as the interval's flags say.
   */
  lemma ScheduleConsistent(data: InputData, p: real, capacity: real, initialSoc: real, sol: seq<VarValues>, t: int)
    requires |sol| == |data.data| && Feasible(p, capacity, initialSoc, sol) && 0 <= t < |sol|
    ensures var s := Schedule(data, sol);
      && s[t].date == data.data[t].date
      && s[t].price * 1000.0 == data.data[t].value
      && s[t].socKWh == initialSoc + Sum(seq(t + 1, k requires 0 <= k <= t => s[k].netFlowKWh))
      && (s[t].action == Buy <==> sol[t].chargeFlag == 1.0)
      && (s[t].action == Sell <==> sol[t].dischargeFlag == 1.0)
      && (s[t].action == Hold <==> sol[t].chargeFlag == 0.0 && sol[t].dischargeFlag == 0.0)
  {
    var s := Schedule(data, sol);
    SoCIsPrefixSum(p, capacity, initialSoc, sol, t);
    assert seq(t + 1, k requires 0 <= k <= t => s[k].netFlowKWh) == NetFlows(sol)[..t + 1];
    assert WithinBounds(sol[t], p, capacity) && IntervalConstraints(sol[t], p, capacity);
    ActionMatchesFlags(sol[t]);
  }
}
