/**
 * The storage optimizer end to end: formulate the program, take the solver's
 * assignment, and extract schedule, cycles and revenue. The solver itself is
 * not modelled; `solved` is the assignment it returns for the formulated program.
 */
module OptimizeStorage {
  import opened Wrappers
  import opened StorageModel
  import opened Formulation
  import opened Extraction

  method OptimizeStorage(data: InputData, powerLimit: real, capacity: real, initialSoc: real,
                         intervalMinutes: int, solved: seq<VarValues>)
    returns (r: Result<OutputData, Error>)
    requires |solved| == |data.data|
    ensures r.Err? <==> |data.data| == 0 || capacity == 0.0
    ensures r.Err? ==> r.error == (if |data.data| == 0 then EmptySeries else ZeroCapacity)
    ensures r.Ok? ==> |r.value.data| == |data.data|
    ensures r.Ok? ==> forall i :: 0 <= i < |data.data| ==>
      r.value.data[i] == OutputDataPoint(data.data[i].date, solved[i].netFlow, solved[i].soc,
                                         ActionOf(solved[i]), data.data[i].value / 1000.0)
    ensures r.Ok? ==> r.value.totalCycles == (Min(TotalCharge(solved), TotalDischarge(solved)) / capacity).Floor
    ensures r.Ok? ==> r.value.revenue == Eval(ObjectiveTerms(Prices(data)), solved).Floor
  {
    var problem := Formulate(data, powerLimit, capacity, initialSoc, intervalMinutes);
    if problem.Err? {
      return Err(problem.error);
    }
    // `solved` is the solver's answer to problem.value
    var prices := Prices(data);
    var schedule := BuildSchedule(data, solved);
    if capacity == 0.0 {
      return Err(ZeroCapacity);
    }
    RevenueIsFlooredObjective(prices, solved);
    r := Ok(OutputData(TotalCycles(solved, capacity), Revenue(prices, solved), schedule));
  }

  /**
   * The optimizer called with its default configuration: 500 kW, 1000 kWh,
   * an empty store and hourly intervals. Only an empty series fails.
   */
  method OptimizeStorageWithDefaults(data: InputData, solved: seq<VarValues>) returns (r: Result<OutputData, Error>)
    requires |solved| == |data.data|
    ensures r.Err? <==> |data.data| == 0
    ensures r.Err? ==> r.error == EmptySeries
    ensures r.Ok? ==> r.value.totalCycles == (Min(TotalCharge(solved), TotalDischarge(solved)) / DefaultCapacity).Floor
    ensures r.Ok? ==> r.value.revenue == Eval(ObjectiveTerms(Prices(data)), solved).Floor
    ensures r.Ok? ==> r.value.data == Schedule(data, solved)
  {
    r := OptimizeStorage(data, DefaultPowerLimit, DefaultCapacity, DefaultInitialSoC, DefaultIntervalMinutes, solved);
  }
}
