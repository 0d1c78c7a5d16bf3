/**
 * `ShiftPlanner` (planning_model.py:30-199): the configured planner object,
 * whose methods build the constraint model, solve it, store the extracted
 * solution and flatten it into records.
 */
module Planner {
  import opened Wrappers
  import opened Dicts
  import opened CpSat
  import opened PlannerConfig
  import opened ModelBuilder
  import opened Solver
  import opened ShiftSolution
  import opened StructureCheck
  import opened Records

  // ---- The loops of `_make_model` ----

  /** The variable-creation loops: weeks, then advisors, then days. */
  method MakeVariables(c: Config) returns (vars: map<Key, IntVar>)
    ensures vars == Variables(c)
  {
    vars := map[];
    var w := 0;
    while w < c.weeks
      invariant 0 <= w <= c.weeks
      invariant forall k :: k in vars <==> IsVarKey(c, k) && k.week < w
      invariant forall k :: k in vars ==> vars[k] == IntVar(1, 3)
    {
      var i := 0;
      while i < |c.advisors|
        invariant 0 <= i <= |c.advisors|
        invariant forall k :: k in vars <==> IsVarKey(c, k) && (k.week < w || (k.week == w && k.advisor in c.advisors[..i]))
        invariant forall k :: k in vars ==> vars[k] == IntVar(1, 3)
      {
        var advisor := c.advisors[i];
        var j := 0;
        while j < |c.days|
          invariant 0 <= j <= |c.days|
          invariant forall k :: k in vars <==>
                      (IsVarKey(c, k) &&
                       (k.week < w || (k.week == w && (k.advisor in c.advisors[..i] || (k.advisor == advisor && k.day in c.days[..j])))))
          invariant forall k :: k in vars ==> vars[k] == IntVar(1, 3)
        {
          vars := vars[Key(advisor, w, c.days[j]) := IntVar(1, 3)];
          forall k: Key ensures k.day in c.days[..j + 1] <==> k.day in c.days[..j] || k.day == c.days[j] {
            PrefixStep(c.days, j + 1, k.day);
          }
          j := j + 1;
        }
        forall k: Key ensures k.advisor in c.advisors[..i + 1] <==> k.advisor in c.advisors[..i] || k.advisor == advisor {
          PrefixStep(c.advisors, i + 1, k.advisor);
        }
        assert c.days[..j] == c.days;
        i := i + 1;
      }
      assert c.advisors[..i] == c.advisors;
      w := w + 1;
    }
  }

  /** The all-different loops: one constraint per week and day over that day's variables. */
  method AddCoverage(c: Config, cs0: seq<Constraint<Key>>) returns (cs: seq<Constraint<Key>>)
    ensures cs == cs0 + CoverageConstraints(c)
  {
    ghost var perWeek := seq(c.weeks, w requires 0 <= w < c.weeks => CoverageOfWeek(c, w));
    cs := cs0;
    var w := 0;
    while w < c.weeks
      invariant 0 <= w <= c.weeks
      invariant cs == cs0 + Flatten(perWeek[..w])
    {
      var j := 0;
      while j < |c.days|
        invariant 0 <= j <= |c.days|
        invariant cs == cs0 + Flatten(perWeek[..w]) + CoverageOfWeek(c, w)[..j]
      {
        var dayVars := DayKeys(c.advisors, w, c.days[j]);
        cs := cs + [AllDiff(dayVars)];
        assert CoverageOfWeek(c, w)[..j + 1] == CoverageOfWeek(c, w)[..j] + [AllDiff(dayVars)];
        j := j + 1;
      }
      FlattenStep(perWeek, w);
      assert CoverageOfWeek(c, w)[..j] == perWeek[w];
      w := w + 1;
    }
    assert perWeek[..w] == perWeek;
  }

  /** The innermost same-shift loop: each of the advisor's later days in week `w` equals the first. */
  method AddAdvisorConsistency(c: Config, w: int, advisor: string, cs0: seq<Constraint<Key>>) returns (cs: seq<Constraint<Key>>)
    requires |c.days| >= 1
    ensures cs == cs0 + ConsistencyOfAdvisor(c, w, advisor)
  {
    cs := cs0;
    var first := Key(advisor, w, c.days[0]);
    var j := 1;
    while j < |c.days|
      invariant 1 <= j <= |c.days|
      invariant cs == cs0 + ConsistencyOfAdvisor(c, w, advisor)[..j - 1]
    {
      cs := cs + [EqVar(Key(advisor, w, c.days[j]), first)];
      assert ConsistencyOfAdvisor(c, w, advisor)[..j] == ConsistencyOfAdvisor(c, w, advisor)[..j - 1] + [EqVar(Key(advisor, w, c.days[j]), first)];
      j := j + 1;
    }
    assert ConsistencyOfAdvisor(c, w, advisor)[..j - 1] == ConsistencyOfAdvisor(c, w, advisor);
  }

  /** The advisor loop of one week: each advisor's same-shift constraints, in advisor order. */
  method AddWeekConsistency(c: Config, w: int, cs0: seq<Constraint<Key>>) returns (cs: seq<Constraint<Key>>)
    requires |c.days| >= 1
    ensures cs == cs0 + ConsistencyOfWeek(c, w)
  {
    ghost var perAdvisor := seq(|c.advisors|, i requires 0 <= i < |c.advisors| => ConsistencyOfAdvisor(c, w, c.advisors[i]));
    cs := cs0;
    var i := 0;
    while i < |c.advisors|
      invariant 0 <= i <= |c.advisors|
      invariant cs == cs0 + Flatten(perAdvisor[..i])
    {
      cs := AddAdvisorConsistency(c, w, c.advisors[i], cs);
      FlattenStep(perAdvisor, i);
      i := i + 1;
    }
    assert perAdvisor[..i] == perAdvisor;
  }

  /** The same-shift-all-week loops: within each week every later day equals the first. */
  method AddConsistency(c: Config, cs0: seq<Constraint<Key>>) returns (cs: seq<Constraint<Key>>)
    requires |c.days| >= 1
    ensures cs == cs0 + ConsistencyConstraints(c)
  {
    ghost var perWeek := seq(c.weeks, w requires 0 <= w < c.weeks => ConsistencyOfWeek(c, w));
    cs := cs0;
    var w := 0;
    while w < c.weeks
      invariant 0 <= w <= c.weeks
      invariant cs == cs0 + Flatten(perWeek[..w])
    {
      cs := AddWeekConsistency(c, w, cs);
      FlattenStep(perWeek, w);
      w := w + 1;
    }
    assert perWeek[..w] == perWeek;
  }

  /** The opening-only loops: when pinning is on, the pinned advisor is 1 on every week and day. */
  method AddPinning(c: Config, cs0: seq<Constraint<Key>>) returns (cs: seq<Constraint<Key>>)
    requires ValidConfig(c)
    ensures cs == cs0 + PinConstraints(c)
  {
    cs := cs0;
    if c.enforceOpeningOnly {
      var pinned := c.openingOnlyAdvisor.value;
      ghost var perWeek := seq(c.weeks, w requires 0 <= w < c.weeks => PinOfWeek(c, pinned, w));
      var w := 0;
      while w < c.weeks
        invariant 0 <= w <= c.weeks
        invariant cs == cs0 + Flatten(perWeek[..w])
      {
        var j := 0;
        while j < |c.days|
          invariant 0 <= j <= |c.days|
          invariant cs == cs0 + Flatten(perWeek[..w]) + PinOfWeek(c, pinned, w)[..j]
        {
          cs := cs + [EqConst(Key(pinned, w, c.days[j]), 1)];
          assert PinOfWeek(c, pinned, w)[..j + 1] == PinOfWeek(c, pinned, w)[..j] + [EqConst(Key(pinned, w, c.days[j]), 1)];
          j := j + 1;
        }
        FlattenStep(perWeek, w);
        assert PinOfWeek(c, pinned, w)[..j] == perWeek[w];
        w := w + 1;
      }
      assert perWeek[..w] == perWeek;
    }
  }

  /** The inner rotation loop: the advisor's first-day roles differ between weeks w and w + 1. */
  method AddAdvisorRotation(c: Config, advisor: string, cs0: seq<Constraint<Key>>) returns (cs: seq<Constraint<Key>>)
    requires |c.days| >= 1 && c.weeks >= 1
    ensures cs == cs0 + RotationOfAdvisor(c, advisor)
  {
    cs := cs0;
    var w := 0;
    while w < c.weeks - 1
      invariant 0 <= w <= c.weeks - 1
      invariant cs == cs0 + RotationOfAdvisor(c, advisor)[..w]
    {
      var current, next := Key(advisor, w, c.days[0]), Key(advisor, w + 1, c.days[0]);
      cs := cs + [NeqVar(current, next)];
      assert RotationOfAdvisor(c, advisor)[..w + 1] == RotationOfAdvisor(c, advisor)[..w] + [NeqVar(current, next)];
      w := w + 1;
    }
    assert RotationOfAdvisor(c, advisor)[..w] == RotationOfAdvisor(c, advisor);
  }

  /**
   * The rotation loops: when rotation is on and there is more than one week,
   * every advisor but the pinned one changes role between consecutive weeks.
   */
  method AddRotation(c: Config, cs0: seq<Constraint<Key>>) returns (cs: seq<Constraint<Key>>)
    requires ValidConfig(c)
    ensures cs == cs0 + RotationConstraints(c)
  {
    cs := cs0;
    if c.enableWeeklyRotation && c.weeks > 1 {
      ghost var perAdvisor := seq(|c.advisors|, i requires 0 <= i < |c.advisors| =>
        if ExemptFromRotation(c, c.advisors[i]) then [] else RotationOfAdvisor(c, c.advisors[i]));
      var i := 0;
      while i < |c.advisors|
        invariant 0 <= i <= |c.advisors|
        invariant cs == cs0 + Flatten(perAdvisor[..i])
      {
        var advisor := c.advisors[i];
        FlattenStep(perAdvisor, i);
        if !(c.enforceOpeningOnly && Some(advisor) == c.openingOnlyAdvisor) {
          cs := AddAdvisorRotation(c, advisor, cs);
        }
        i := i + 1;
      }
      assert perAdvisor[..i] == perAdvisor;
    }
  }

  /** All of `_make_model`'s constraints, family by family in the order the source adds them. */
  method MakeConstraints(c: Config) returns (cs: seq<Constraint<Key>>)
    requires ValidConfig(c)
    ensures cs == ModelConstraints(c)
  {
    cs := AddCoverage(c, []);
    cs := AddConsistency(c, cs);
    cs := AddPinning(c, cs);
    cs := AddRotation(c, cs);
  }

  // ---- The extraction loops of `build_and_solve` ----

  /** The day loop: `sol[advisor][w][day] = SHIFT_MAP[value]` for each configured day. */
  method ExtractWeekDays(c: Config, values: map<Key, int>, advisor: string, w: int) returns (days: Dict<string, string>)
    requires InDomain(c, values) && advisor in c.advisors && 0 <= w < c.weeks
    ensures days == ExtractDays(c, values, advisor, w, |c.days|)
  {
    days := Empty();
    var j := 0;
    while j < |c.days|
      invariant 0 <= j <= |c.days|
      invariant days == ExtractDays(c, values, advisor, w, j)
    {
      var day := c.days[j];
      var k := Key(advisor, w, day);
      assert IsVarKey(c, k);
      var val := values[k];
      LabelOfRole(values, k);
      days := days.Put(day, ShiftMap[val]);
      j := j + 1;
    }
  }

  /** The week loop: `sol[advisor][w]` for each week 0 .. weeks-1. */
  method ExtractAdvisorWeeks(c: Config, values: map<Key, int>, advisor: string) returns (weeks: Dict<int, Dict<string, string>>)
    requires InDomain(c, values) && advisor in c.advisors
    ensures weeks == ExtractWeeks(c, values, advisor, c.weeks)
  {
    weeks := Empty();
    var w := 0;
    while w < c.weeks
      invariant 0 <= w <= c.weeks
      invariant weeks == ExtractWeeks(c, values, advisor, w)
    {
      var days := ExtractWeekDays(c, values, advisor, w);
      weeks := weeks.Put(w, days);
      w := w + 1;
    }
  }

  /**
   * The advisor loop: `sol[advisor]` for each configured advisor. The source
   * stores an empty dict first and fills it in place; storing the filled dict
   * leaves the same keys, in the same order, with the same contents.
   */
  method ExtractSolution(c: Config, values: map<Key, int>) returns (sol: Solution)
    requires InDomain(c, values)
    ensures sol == Extracted(c, values)
  {
    sol := Empty();
    var i := 0;
    while i < |c.advisors|
      invariant 0 <= i <= |c.advisors|
      invariant sol == ExtractAdvisors(c, values, i)
    {
      var advisor := c.advisors[i];
      var weeks := ExtractAdvisorWeeks(c, values, advisor);
      sol := sol.Put(advisor, weeks);
      i := i + 1;
    }
  }

  // ---- The flattening loops of `solution_to_dataframe` ----

  /** The rows of one week's days, appended in the day dict's order. */
  method AppendDayRows(rows0: seq<Row>, advisor: string, w: int, days: Dict<string, string>) returns (rows: seq<Row>)
    requires days.Valid()
    ensures rows == rows0 + DayRows(advisor, w, days, |days.keys|)
  {
    rows := rows0;
    var k := 0;
    while k < |days.keys|
      invariant 0 <= k <= |days.keys|
      invariant rows == rows0 + DayRows(advisor, w, days, k)
    {
      var day := days.keys[k];
      rows := rows + [Row(advisor, w + 1, day, days.entries[day])];
      k := k + 1;
    }
  }

  /** The rows of one advisor's weeks, appended in the week dict's order. */
  method AppendWeekRows(rows0: seq<Row>, advisor: string, weeks: Dict<int, Dict<string, string>>) returns (rows: seq<Row>)
    requires WeeksValid(weeks)
    ensures rows == rows0 + WeekRows(advisor, weeks, |weeks.keys|)
  {
    rows := rows0;
    var j := 0;
    while j < |weeks.keys|
      invariant 0 <= j <= |weeks.keys|
      invariant rows == rows0 + WeekRows(advisor, weeks, j)
    {
      var w := weeks.keys[j];
      rows := AppendDayRows(rows, advisor, w, weeks.entries[w]);
      j := j + 1;
    }
  }

  /** All rows of a solution, advisor by advisor in the solution's order. */
  method FlattenSolution(sol: Solution) returns (rows: seq<Row>)
    requires WellFormed(sol)
    ensures rows == Rows(sol)
  {
    rows := [];
    var i := 0;
    while i < |sol.keys|
      invariant 0 <= i <= |sol.keys|
      invariant rows == AdvisorRows(sol, i)
    {
      var advisor := sol.keys[i];
      rows := AppendWeekRows(rows, advisor, sol.entries[advisor]);
      i := i + 1;
    }
  }

  /**
   * `sol` is what extraction makes of an assignment that satisfies the model
   * of `c`: it is well formed, keeps every rule on labels, and passes the
   * structure check for the configured advisors, weeks and days.
   */
  ghost predicate Solved(c: Config, sol: Solution)
    requires ValidConfig(c)
  {
    && (exists a :: Satisfies(a, Variables(c), ModelConstraints(c)) && sol == Extracted(c, a))
    && WellFormed(sol)
    && MeetsRules(c, sol)
    && ValidateSolutionStructure(sol, c.advisors, c.weeks, c.days) == Pass
  }

  /**
   * The solve-and-extract steps of `build_and_solve`: solve the built model,
   * raise on a status other than Optimal or Feasible (which happens exactly
   * when two advisors share a name), and otherwise extract the labels of the
   * solver's values: every key present, every rule kept, and the structure
   * check passing.
   */
  method SolveAndExtract(c: Config, vars: map<Key, IntVar>, cs: seq<Constraint<Key>>) returns (r: Result<Solution, PlannerError>)
    requires ValidConfig(c) && vars == Variables(c) && cs == ModelConstraints(c)
    ensures r.Success? <==> DistinctAdvisors(c)
    ensures r.Failure? ==> r.error == NoSolution(Infeasible)
    ensures r.Success? ==> Solved(c, r.value)
  {
    var status, values := Solve(c, vars, cs);
    Feasibility(c);
    if status != Optimal && status != Feasible {
      return Failure(NoSolution(status));
    }
    SatisfiableMeansDistinct(c, values);
    ExtractedMeetsRules(c, values);
    var sol := ExtractSolution(c, values);
    ExtractedWellFormed(c, values);
    ExtractedIsWellShaped(c, values);
    return Success(sol);
  }

  // ---- The planner object ----

  class ShiftPlanner {
    const advisors: seq<string>
    const days: seq<string>
    const weeks: nat
    const enforceOpeningOnly: bool
    const openingOnlyAdvisor: Option<string>
    const enableWeeklyRotation: bool

    /** `self.vars`: the variable of each (advisor, week_index, day_name). */
    var vars: map<Key, IntVar>
    /** `self.model`: None until the model is built, then its constraints in the order added. */
    var model: Option<seq<Constraint<Key>>>
    /** `self._solution`: None until a solve succeeds. */
    var solution: Option<Solution>

    /** The configuration the constructor accepted. */
    function Cfg(): (c: Config) {
      Config(advisors, days, weeks, enforceOpeningOnly, openingOnlyAdvisor, enableWeeklyRotation)
    }

    /**
     * The configuration is one the constructor accepts, a built model is the
     * model of that configuration, and a stored solution is what extraction
     * makes of a satisfying assignment.
     */
    ghost predicate Valid()
      reads this
    {
      && ValidConfig(Cfg())
      && (model.Some? ==> vars == Variables(Cfg()) && model.value == ModelConstraints(Cfg()))
      && (solution.Some? ==> Solved(Cfg(), solution.value))
    }

    /** The fields `__init__` sets once its checks have passed. */
    constructor (c: Config)
      requires ValidConfig(c)
      ensures Valid() && Cfg() == c
      ensures vars == map[] && model.None? && solution.None?
    {
      advisors, days, weeks := c.advisors, c.days, c.weeks;
      enforceOpeningOnly, openingOnlyAdvisor, enableWeeklyRotation := c.enforceOpeningOnly, c.openingOnlyAdvisor, c.enableWeeklyRotation;
      vars, model, solution := map[], None, None;
    }

    /**
     * `ShiftPlanner(advisors, days, weeks, ...)`: a planner for the accepted
     * configuration, or the error the first failing check raises. The
     * arguments default as in Python: no advisors or days, one week, no
     * pinning and no rotation.
     */
    static method Create(advisors: Option<seq<string>> := None, days: Option<seq<string>> := None, weeks: int := 1,
                         enforceOpeningOnly: bool := false, openingOnlyAdvisor: Option<string> := None,
                         enableWeeklyRotation: bool := false)
      returns (r: Result<ShiftPlanner, PlannerError>)
      ensures var checked := CheckConfig(advisors, days, weeks, enforceOpeningOnly, openingOnlyAdvisor, enableWeeklyRotation);
        && (r.Success? <==> checked.Success?)
        && (r.Failure? ==> r.error == checked.error)
        && (r.Success? ==> fresh(r.value) && r.value.Valid() && r.value.Cfg() == checked.value &&
                           r.value.model.None? && r.value.solution.None?)
    {
      var checked := CheckConfig(advisors, days, weeks, enforceOpeningOnly, openingOnlyAdvisor, enableWeeklyRotation);
      if checked.Failure? {
        return Failure(checked.error);
      }
      var planner := new ShiftPlanner(checked.value);
      return Success(planner);
    }

    /** `_make_model`: fresh variables and the four constraint families, in that order. */
    method MakeModel()
      requires Valid()
      modifies this
      ensures Valid()
      ensures vars == Variables(Cfg()) && model == Some(ModelConstraints(Cfg()))
      ensures solution == old(solution)
    {
      vars := MakeVariables(Cfg());
      var cs := MakeConstraints(Cfg());
      model := Some(cs);
    }

    /**
     * `build_and_solve`: builds the model and solves it. A status other than
     * Optimal or Feasible raises; this happens exactly when two advisors share
     * a name. Otherwise the labels of the solver's values are stored and
     * returned: every key present, every rule kept, and the structure check
     * passing.
     */
    method BuildAndSolve() returns (r: Result<Solution, PlannerError>)
      requires Valid()
      modifies this
      ensures Valid()
      ensures vars == Variables(Cfg()) && model == Some(ModelConstraints(Cfg()))
      ensures r.Success? <==> DistinctAdvisors(Cfg())
      ensures r.Failure? ==> r.error == NoSolution(Infeasible) && solution == old(solution)
      ensures r.Success? ==> solution == Some(r.value) && Solved(Cfg(), r.value)
    {
      MakeModel();
      var c := Cfg();
      r := SolveAndExtract(c, vars, model.value);
      if r.Success? {
        solution := Some(r.value);
        assert Cfg() == c;
      }
    }

    /**
     * `solution_to_dataframe`: raises when nothing is stored, and otherwise
     * gives one record per stored (advisor, week, day), in the stored order.
     */
    method SolutionToDataframe() returns (r: Result<seq<Row>, PlannerError>)
      requires Valid()
      ensures solution.None? ==> r == Failure(NoStoredSolution)
      ensures solution.Some? ==> r == Success(Rows(solution.value))
    {
      if solution.None? {
        return Failure(NoStoredSolution);
      }
      var rows := FlattenSolution(solution.value);
      return Success(rows);
    }

    /** `solution_to_json`: the same records as `solution_to_dataframe`. */
    method SolutionToJson() returns (r: Result<seq<Row>, PlannerError>)
      requires Valid()
      ensures solution.None? ==> r == Failure(NoStoredSolution)
      ensures solution.Some? ==> r == Success(Rows(solution.value))
    {
      r := SolutionToDataframe();
    }
  }
}
