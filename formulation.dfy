/**
 * The mixed-integer linear program of optimize_storage.py written as data:
 * its variables with their domains, the linear objective, and the list of
 * linear constraints added one by one. `Formulate` builds it as the source
 * does; `FormulationMeaning` proves that an assignment satisfies it exactly
 * when `Feasible` holds, and `ObjectiveIsProfit` that the objective is the
 * profit the extractor reports.
 */
module Formulation {
  import opened Wrappers
  import opened StorageModel

  /** The six families of decision variables; each has one variable per interval. */
  datatype Family = ChargeAmount | DischargeAmount | NetFlow | SoC | Charge | Discharge

  /** The variable of a family for interval t. */
  datatype Var = Var(family: Family, t: int)

  /** `coef * v` in a linear expression. */
  datatype Term = Term(coef: real, v: Var)

  datatype Relation = Eq | Le | Ge

  /** `Σ lhs  rel  rhs`. */
  datatype Constraint = Constraint(lhs: seq<Term>, rel: Relation, rhs: real)

  datatype Domain = Bounded(lo: real, hi: real) | Binary

  datatype VarDecl = VarDecl(v: Var, dom: Domain)

  /** A maximization problem. */
  datatype Problem = Problem(variables: seq<VarDecl>, objective: seq<Term>, constraints: seq<Constraint>)

  /** The value an assignment gives a variable (variables outside the horizon read as 0). */
  function Value(v: Var, sol: seq<VarValues>): real {
    if 0 <= v.t < |sol| then
      var x := sol[v.t];
      match v.family
      case ChargeAmount => x.charge
      case DischargeAmount => x.discharge
      case NetFlow => x.netFlow
      case SoC => x.soc
      case Charge => x.chargeFlag
      case Discharge => x.dischargeFlag
    else 0.0
  }

  function Eval(terms: seq<Term>, sol: seq<VarValues>): real {
    if |terms| == 0 then 0.0 else terms[0].coef * Value(terms[0].v, sol) + Eval(terms[1..], sol)
  }

  predicate Holds(c: Constraint, sol: seq<VarValues>) {
    var lhs := Eval(c.lhs, sol);
    match c.rel
    case Eq => lhs == c.rhs
    case Le => lhs <= c.rhs
    case Ge => lhs >= c.rhs
  }

  predicate AllHold(cs: seq<Constraint>, sol: seq<VarValues>) {
    forall i :: 0 <= i < |cs| ==> Holds(cs[i], sol)
  }

  predicate InDomain(d: VarDecl, sol: seq<VarValues>) {
    var x := Value(d.v, sol);
    match d.dom
    case Bounded(lo, hi) => lo <= x <= hi
    case Binary => x == 0.0 || x == 1.0
  }

  predicate AllInDomain(ds: seq<VarDecl>, sol: seq<VarValues>) {
    forall i :: 0 <= i < |ds| ==> InDomain(ds[i], sol)
  }

  predicate Satisfies(prob: Problem, sol: seq<VarValues>) {
    AllInDomain(prob.variables, sol) && AllHold(prob.constraints, sol)
  }

  // ----- the variables -----

  /** The six variable families over n intervals, each declared with its bounds or as binary. */
  function VariableDecls(n: nat, p: real, capacity: real): seq<VarDecl> {
    Declare(n, ChargeAmount, Bounded(0.0, p))
    + Declare(n, DischargeAmount, Bounded(0.0, p))
    + Declare(n, NetFlow, Bounded(-p, p))
    + Declare(n, SoC, Bounded(0.0, capacity))
    + Declare(n, Charge, Binary)
    + Declare(n, Discharge, Binary)
  }

  /** One variable per interval t in [0, n), all with the same domain. */
  function Declare(n: nat, family: Family, dom: Domain): seq<VarDecl> {
    seq(n, t => VarDecl(Var(family, t), dom))
  }

  // ----- the objective -----

  /** Σ_t (-price_t * ChargeAmount_t + price_t * DischargeAmount_t). */
  function ObjectiveTerms(prices: seq<real>): seq<Term> {
    if |prices| == 0 then []
    else
      var t := |prices| - 1;
      ObjectiveTerms(prices[..t]) + [Term(-prices[t], Var(ChargeAmount, t)), Term(prices[t], Var(DischargeAmount, t))]
  }

  // ----- the constraints -----

  /** SoC_0 == initial_soc + NetFlow_0 */
  function InitialSoC(initialSoc: real): Constraint {
    Constraint([Term(1.0, Var(SoC, 0)), Term(-1.0, Var(NetFlow, 0))], Eq, initialSoc)
  }

  /** SoC_t == SoC_{t-1} + NetFlow_t */
  function Dynamics(t: int): Constraint {
    Constraint([Term(1.0, Var(SoC, t)), Term(-1.0, Var(SoC, t - 1)), Term(-1.0, Var(NetFlow, t))], Eq, 0.0)
  }

  /** NetFlow_t == ChargeAmount_t - DischargeAmount_t */
  function NetFlowDefinition(t: int): Constraint {
    Constraint([Term(1.0, Var(NetFlow, t)), Term(-1.0, Var(ChargeAmount, t)), Term(1.0, Var(DischargeAmount, t))], Eq, 0.0)
  }

  /** ChargeAmount_t <= P * Charge_t */
  function ChargeLink(t: int, p: real): Constraint {
    Constraint([Term(1.0, Var(ChargeAmount, t)), Term(-p, Var(Charge, t))], Le, 0.0)
  }

  /** DischargeAmount_t <= P * Discharge_t */
  function DischargeLink(t: int, p: real): Constraint {
    Constraint([Term(1.0, Var(DischargeAmount, t)), Term(-p, Var(Discharge, t))], Le, 0.0)
  }

  /** Charge_t + Discharge_t <= 1 */
  function Exclusivity(t: int): Constraint {
    Constraint([Term(1.0, Var(Charge, t)), Term(1.0, Var(Discharge, t))], Le, 1.0)
  }

  /** SoC_t >= 0 */
  function SoCLower(t: int): Constraint {
    Constraint([Term(1.0, Var(SoC, t))], Ge, 0.0)
  }

  /** SoC_t <= capacity */
  function SoCUpper(t: int, capacity: real): Constraint {
    Constraint([Term(1.0, Var(SoC, t))], Le, capacity)
  }

  /** Dynamics constraints for t in [1, k). */
  function DynamicsBlock(k: nat): seq<Constraint> {
    if k <= 1 then [] else DynamicsBlock(k - 1) + [Dynamics(k - 1)]
  }

  /** Net-flow definitions for t in [0, k). */
  function NetFlowBlock(k: nat): seq<Constraint> {
    if k == 0 then [] else NetFlowBlock(k - 1) + [NetFlowDefinition(k - 1)]
  }

  /** Charge link, discharge link and exclusivity for t in [0, k). */
  function LinkBlock(k: nat, p: real): seq<Constraint> {
    if k == 0 then []
    else LinkBlock(k - 1, p) + [ChargeLink(k - 1, p), DischargeLink(k - 1, p), Exclusivity(k - 1)]
  }

  /** SoC lower and upper limit for t in [0, k). */
  function SoCBlock(k: nat, capacity: real): seq<Constraint> {
    if k == 0 then [] else SoCBlock(k - 1, capacity) + [SoCLower(k - 1), SoCUpper(k - 1, capacity)]
  }

  /** Every constraint of the program over n intervals, in the order they are added. */
  function ConstraintSet(n: nat, p: real, capacity: real, initialSoc: real): seq<Constraint> {
    [InitialSoC(initialSoc)] + DynamicsBlock(n) + NetFlowBlock(n) + LinkBlock(n, p) + SoCBlock(n, capacity)
  }

  /** The program the optimizer hands to the solver for n = |prices| intervals. */
  function Program(prices: seq<real>, p: real, capacity: real, initialSoc: real): Problem {
    Problem(VariableDecls(|prices|, p, capacity), ObjectiveTerms(prices), ConstraintSet(|prices|, p, capacity, initialSoc))
  }

  /**
   * Builds the program: derived constants, the variables, the objective and
   * the constraints, each constraint family in its own loop. An empty series
   * fails where the source refers to SoC_0.
   */
  method Formulate(data: InputData, powerLimit: real, capacity: real, initialSoc: real, intervalMinutes: int)
    returns (r: Result<Problem, Error>)
    ensures |data.data| == 0 <==> r.Err?
    ensures r.Err? ==> r.error == EmptySeries
    ensures r.Ok? ==> r.value == Program(Prices(data), PowerLimitPerInterval(powerLimit, intervalMinutes), capacity, initialSoc)
    ensures r.Ok? ==> forall sol :: |sol| == |data.data| ==>
      (Satisfies(r.value, sol) <==> Feasible(PowerLimitPerInterval(powerLimit, intervalMinutes), capacity, initialSoc, sol))
  {
    var p := PowerLimitPerInterval(powerLimit, intervalMinutes);
    var prices := Prices(data);
    var n := |prices|;
    var variables := VariableDecls(n, p, capacity);
    var objective := ObjectiveTerms(prices);
    if n == 0 {
      return Err(EmptySeries);
    }
    var cons := [InitialSoC(initialSoc)];
    for t := 1 to n
      invariant cons == [InitialSoC(initialSoc)] + DynamicsBlock(t)
    {
      cons := cons + [Dynamics(t)];
    }
    ghost var prefix := cons;
    for t := 0 to n
      invariant cons == prefix + NetFlowBlock(t)
    {
      cons := cons + [NetFlowDefinition(t)];
    }
    prefix := cons;
    for t := 0 to n
      invariant cons == prefix + LinkBlock(t, p)
    {
      cons := cons + [ChargeLink(t, p), DischargeLink(t, p), Exclusivity(t)];
    }
    prefix := cons;
    for t := 0 to n
      invariant cons == prefix + SoCBlock(t, capacity)
    {
      cons := cons + [SoCLower(t), SoCUpper(t, capacity)];
    }
    r := Ok(Problem(variables, objective, cons));
    forall sol | |sol| == n
      ensures Satisfies(r.value, sol) <==> Feasible(p, capacity, initialSoc, sol)
    {
      FormulationMeaning(prices, p, capacity, initialSoc, sol);
    }
  }

  // ----- evaluation of short linear expressions -----

  lemma Eval1(a: Term, sol: seq<VarValues>)
    ensures Eval([a], sol) == a.coef * Value(a.v, sol)
  {
    assert [a][1..] == [];
  }

  lemma Eval2(a: Term, b: Term, sol: seq<VarValues>)
    ensures Eval([a, b], sol) == a.coef * Value(a.v, sol) + b.coef * Value(b.v, sol)
  {
    assert [a, b][1..] == [b];
    Eval1(b, sol);
  }

  lemma Eval3(a: Term, b: Term, c: Term, sol: seq<VarValues>)
    ensures Eval([a, b, c], sol) == a.coef * Value(a.v, sol) + b.coef * Value(b.v, sol) + c.coef * Value(c.v, sol)
  {
    assert [a, b, c][1..] == [b, c];
    Eval2(b, c, sol);
  }

  lemma {:induction false} EvalAppend(a: seq<Term>, b: seq<Term>, sol: seq<VarValues>)
    ensures Eval(a + b, sol) == Eval(a, sol) + Eval(b, sol)
  {
    if |a| > 0 {
      assert (a + b)[1..] == a[1..] + b;
      EvalAppend(a[1..], b, sol);
    } else {
      assert a + b == b;
    }
  }

  lemma AllHoldAppend(a: seq<Constraint>, b: seq<Constraint>, sol: seq<VarValues>)
    ensures AllHold(a + b, sol) <==> AllHold(a, sol) && AllHold(b, sol)
  {
    if AllHold(a, sol) && AllHold(b, sol) {
      forall i | 0 <= i < |a + b| ensures Holds((a + b)[i], sol) {
        if i >= |a| {
          assert (a + b)[i] == b[i - |a|];
        }
      }
    }
    if AllHold(a + b, sol) {
      forall i | 0 <= i < |b| ensures Holds(b[i], sol) {
        assert (a + b)[|a| + i] == b[i];
      }
      forall i | 0 <= i < |a| ensures Holds(a[i], sol) {
        assert (a + b)[i] == a[i];
      }
    }
  }

  lemma AllHoldSingle(c: Constraint, sol: seq<VarValues>)
    ensures AllHold([c], sol) <==> Holds(c, sol)
  {
    assert [c][0] == c;
  }

  lemma AllInDomainAppend(a: seq<VarDecl>, b: seq<VarDecl>, sol: seq<VarValues>)
    ensures AllInDomain(a + b, sol) <==> AllInDomain(a, sol) && AllInDomain(b, sol)
  {
    if AllInDomain(a, sol) && AllInDomain(b, sol) {
      forall i | 0 <= i < |a + b| ensures InDomain((a + b)[i], sol) {
        if i >= |a| {
          assert (a + b)[i] == b[i - |a|];
        }
      }
    }
    if AllInDomain(a + b, sol) {
      forall i | 0 <= i < |b| ensures InDomain(b[i], sol) {
        assert (a + b)[|a| + i] == b[i];
      }
      forall i | 0 <= i < |a| ensures InDomain(a[i], sol) {
        assert (a + b)[i] == a[i];
      }
    }
  }

  // ----- what each constraint means -----

  lemma InitialSoCMeaning(initialSoc: real, sol: seq<VarValues>)
    requires |sol| >= 1
    ensures Holds(InitialSoC(initialSoc), sol) <==> Balanced(sol, initialSoc, 0)
  {
    Eval2(Term(1.0, Var(SoC, 0)), Term(-1.0, Var(NetFlow, 0)), sol);
  }

  lemma {:induction false} DynamicsBlockMeaning(k: nat, initialSoc: real, sol: seq<VarValues>)
    requires k <= |sol|
    ensures AllHold(DynamicsBlock(k), sol) <==> forall t :: 1 <= t < k ==> Balanced(sol, initialSoc, t)
  {
    if k > 1 {
      var t := k - 1;
      DynamicsBlockMeaning(k - 1, initialSoc, sol);
      AllHoldAppend(DynamicsBlock(k - 1), [Dynamics(t)], sol);
      Eval3(Term(1.0, Var(SoC, t)), Term(-1.0, Var(SoC, t - 1)), Term(-1.0, Var(NetFlow, t)), sol);
      assert Value(Var(SoC, t), sol) == sol[t].soc && Value(Var(SoC, t - 1), sol) == sol[t - 1].soc;
      assert Value(Var(NetFlow, t), sol) == sol[t].netFlow;
      AllHoldSingle(Dynamics(t), sol);
      assert Holds(Dynamics(t), sol) <==> Balanced(sol, initialSoc, t);
      assert DynamicsBlock(k) == DynamicsBlock(k - 1) + [Dynamics(t)];
      assert AllHold(DynamicsBlock(k), sol) <==> AllHold(DynamicsBlock(k - 1), sol) && Holds(Dynamics(t), sol);
    }
  }

  // The per-interval constraint families, stated on one interval's values.

  predicate NetFlowHolds(v: VarValues) {
    v.netFlow == v.charge - v.discharge
  }

  predicate LinksHold(v: VarValues, p: real) {
    v.charge <= p * v.chargeFlag && v.discharge <= p * v.dischargeFlag && v.chargeFlag + v.dischargeFlag <= 1.0
  }

  predicate SoCLimitsHold(v: VarValues, capacity: real) {
    v.soc >= 0.0 && v.soc <= capacity
  }

  lemma {:induction false} NetFlowBlockMeaning(k: nat, sol: seq<VarValues>)
    requires k <= |sol|
    ensures AllHold(NetFlowBlock(k), sol) <==> forall t :: 0 <= t < k ==> NetFlowHolds(sol[t])
  {
    if k > 0 {
      var t := k - 1;
      NetFlowBlockMeaning(k - 1, sol);
      AllHoldAppend(NetFlowBlock(k - 1), [NetFlowDefinition(t)], sol);
      Eval3(Term(1.0, Var(NetFlow, t)), Term(-1.0, Var(ChargeAmount, t)), Term(1.0, Var(DischargeAmount, t)), sol);
      AllHoldSingle(NetFlowDefinition(t), sol);
    }
  }

  lemma {:induction false} LinkBlockMeaning(k: nat, p: real, sol: seq<VarValues>)
    requires k <= |sol|
    ensures AllHold(LinkBlock(k, p), sol) <==> forall t :: 0 <= t < k ==> LinksHold(sol[t], p)
  {
    if k > 0 {
      var t := k - 1;
      var last := [ChargeLink(t, p), DischargeLink(t, p), Exclusivity(t)];
      LinkBlockMeaning(k - 1, p, sol);
      AllHoldAppend(LinkBlock(k - 1, p), last, sol);
      LinksMeaning(t, p, sol);
    }
  }

  lemma LinksMeaning(t: int, p: real, sol: seq<VarValues>)
    requires 0 <= t < |sol|
    ensures AllHold([ChargeLink(t, p), DischargeLink(t, p), Exclusivity(t)], sol) <==> LinksHold(sol[t], p)
  {
    AllHoldTriple(ChargeLink(t, p), DischargeLink(t, p), Exclusivity(t), sol);
    ChargeLinkMeaning(t, p, sol);
    DischargeLinkMeaning(t, p, sol);
    ExclusivityMeaning(t, sol);
  }

  lemma AllHoldTriple(a: Constraint, b: Constraint, c: Constraint, sol: seq<VarValues>)
    ensures AllHold([a, b, c], sol) <==> Holds(a, sol) && Holds(b, sol) && Holds(c, sol)
  {
    var cs := [a, b, c];
    assert cs[0] == a && cs[1] == b && cs[2] == c;
  }

  lemma ChargeLinkMeaning(t: int, p: real, sol: seq<VarValues>)
    requires 0 <= t < |sol|
    ensures Holds(ChargeLink(t, p), sol) <==> sol[t].charge <= p * sol[t].chargeFlag
  {
    Eval2(Term(1.0, Var(ChargeAmount, t)), Term(-p, Var(Charge, t)), sol);
  }

  lemma DischargeLinkMeaning(t: int, p: real, sol: seq<VarValues>)
    requires 0 <= t < |sol|
    ensures Holds(DischargeLink(t, p), sol) <==> sol[t].discharge <= p * sol[t].dischargeFlag
  {
    Eval2(Term(1.0, Var(DischargeAmount, t)), Term(-p, Var(Discharge, t)), sol);
  }

  lemma ExclusivityMeaning(t: int, sol: seq<VarValues>)
    requires 0 <= t < |sol|
    ensures Holds(Exclusivity(t), sol) <==> sol[t].chargeFlag + sol[t].dischargeFlag <= 1.0
  {
    Eval2(Term(1.0, Var(Charge, t)), Term(1.0, Var(Discharge, t)), sol);
  }

  lemma {:induction false} SoCBlockMeaning(k: nat, capacity: real, sol: seq<VarValues>)
    requires k <= |sol|
    ensures AllHold(SoCBlock(k, capacity), sol) <==> forall t :: 0 <= t < k ==> SoCLimitsHold(sol[t], capacity)
  {
    if k > 0 {
      var t := k - 1;
      var last := [SoCLower(t), SoCUpper(t, capacity)];
      SoCBlockMeaning(k - 1, capacity, sol);
      AllHoldAppend(SoCBlock(k - 1, capacity), last, sol);
      Eval1(Term(1.0, Var(SoC, t)), sol);
      assert AllHold(last, sol) <==> Holds(last[0], sol) && Holds(last[1], sol);
    }
  }

  lemma DeclareMeaning(n: nat, family: Family, dom: Domain, sol: seq<VarValues>)
    ensures AllInDomain(Declare(n, family, dom), sol) <==> forall t :: 0 <= t < n ==> InDomain(VarDecl(Var(family, t), dom), sol)
  {
    var f := Declare(n, family, dom);
    assert forall t :: 0 <= t < n ==> f[t] == VarDecl(Var(family, t), dom);
  }

  lemma VariableDeclsMeaning(n: nat, p: real, capacity: real, sol: seq<VarValues>)
    requires |sol| == n
    ensures AllInDomain(VariableDecls(n, p, capacity), sol) <==> forall t :: 0 <= t < n ==> WithinBounds(sol[t], p, capacity)
  {
    var c := Declare(n, ChargeAmount, Bounded(0.0, p));
    var d := Declare(n, DischargeAmount, Bounded(0.0, p));
    var f := Declare(n, NetFlow, Bounded(-p, p));
    var s := Declare(n, SoC, Bounded(0.0, capacity));
    var cf := Declare(n, Charge, Binary);
    var df := Declare(n, Discharge, Binary);
    AllInDomainAppend(c + d + f + s + cf, df, sol);
    AllInDomainAppend(c + d + f + s, cf, sol);
    AllInDomainAppend(c + d + f, s, sol);
    AllInDomainAppend(c + d, f, sol);
    AllInDomainAppend(c, d, sol);
    DeclareMeaning(n, ChargeAmount, Bounded(0.0, p), sol);
    DeclareMeaning(n, DischargeAmount, Bounded(0.0, p), sol);
    DeclareMeaning(n, NetFlow, Bounded(-p, p), sol);
    DeclareMeaning(n, SoC, Bounded(0.0, capacity), sol);
    DeclareMeaning(n, Charge, Binary, sol);
    DeclareMeaning(n, Discharge, Binary, sol);
    forall t | 0 <= t < n
      ensures WithinBounds(sol[t], p, capacity) <==>
        && InDomain(VarDecl(Var(ChargeAmount, t), Bounded(0.0, p)), sol)
        && InDomain(VarDecl(Var(DischargeAmount, t), Bounded(0.0, p)), sol)
        && InDomain(VarDecl(Var(NetFlow, t), Bounded(-p, p)), sol)
        && InDomain(VarDecl(Var(SoC, t), Bounded(0.0, capacity)), sol)
        && InDomain(VarDecl(Var(Charge, t), Binary), sol)
        && InDomain(VarDecl(Var(Discharge, t), Binary), sol)
    {
    }
  }

  /** An assignment satisfies the formulated program exactly when it is feasible. */
  lemma FormulationMeaning(prices: seq<real>, p: real, capacity: real, initialSoc: real, sol: seq<VarValues>)
    requires |prices| >= 1 && |sol| == |prices|
    ensures Satisfies(Program(prices, p, capacity, initialSoc), sol) <==> Feasible(p, capacity, initialSoc, sol)
  {
    var n := |prices|;
    var head := [InitialSoC(initialSoc)];
    AllHoldAppend(head + DynamicsBlock(n) + NetFlowBlock(n) + LinkBlock(n, p), SoCBlock(n, capacity), sol);
    AllHoldAppend(head + DynamicsBlock(n) + NetFlowBlock(n), LinkBlock(n, p), sol);
    AllHoldAppend(head + DynamicsBlock(n), NetFlowBlock(n), sol);
    AllHoldAppend(head, DynamicsBlock(n), sol);
    AllHoldSingle(InitialSoC(initialSoc), sol);
    InitialSoCMeaning(initialSoc, sol);
    DynamicsBlockMeaning(n, initialSoc, sol);
    NetFlowBlockMeaning(n, sol);
    LinkBlockMeaning(n, p, sol);
    SoCBlockMeaning(n, capacity, sol);
    VariableDeclsMeaning(n, p, capacity, sol);
    assert (forall t :: 0 <= t < n ==> Balanced(sol, initialSoc, t))
       <==> Balanced(sol, initialSoc, 0) && (forall t :: 1 <= t < n ==> Balanced(sol, initialSoc, t));
    assert (forall t :: 0 <= t < n ==> IntervalConstraints(sol[t], p, capacity))
       <==> ((forall t :: 0 <= t < n ==> NetFlowHolds(sol[t]))
          && (forall t :: 0 <= t < n ==> LinksHold(sol[t], p))
          && (forall t :: 0 <= t < n ==> SoCLimitsHold(sol[t], capacity)));
  }

  /** The objective evaluated at an assignment is the total profit of that assignment. */
  lemma ObjectiveIsProfit(prices: seq<real>, sol: seq<VarValues>)
    requires |sol| == |prices|
    ensures Eval(ObjectiveTerms(prices), sol) == TotalProfit(prices, sol)
  {
    ObjectivePrefix(prices, sol, |prices|);
    assert prices[..|prices|] == prices;
    assert Profits(prices, sol)[..|prices|] == Profits(prices, sol);
  }

  lemma {:induction false} ObjectivePrefix(prices: seq<real>, sol: seq<VarValues>, k: nat)
    requires |sol| == |prices| && k <= |prices|
    ensures Eval(ObjectiveTerms(prices[..k]), sol) == Sum(Profits(prices, sol)[..k])
  {
    if k > 0 {
      var t := k - 1;
      assert prices[..k][..t] == prices[..t];
      ObjectivePrefix(prices, sol, t);
      EvalAppend(ObjectiveTerms(prices[..t]), [Term(-prices[t], Var(ChargeAmount, t)), Term(prices[t], Var(DischargeAmount, t))], sol);
      Eval2(Term(-prices[t], Var(ChargeAmount, t)), Term(prices[t], Var(DischargeAmount, t)), sol);
      SumStep(Profits(prices, sol), t);
    }
  }
}
