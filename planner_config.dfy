/**
 * The planner's configuration, the errors it raises, and the checks made
 * when a planner is constructed (planning_model.py, `ShiftPlanner.__init__`).
 */
module PlannerConfig {
  import opened Wrappers
  import CpSat

  /** `ShiftPlannerError`, one variant per message the planner raises. */
  datatype PlannerError =
    | WrongAdvisorCount
    | NoWorkingDays
    | WeeksTooSmall
    | MissingOpeningAdvisor
    | OpeningAdvisorNotListed
    | NoSolution(status: CpSat.Status)
    | NoStoredSolution
    | MissingAdvisor(advisor: string)
    | WrongWeekCount(advisor: string)
    | MissingWeek(week: int, advisor: string)
    | MissingDay(day: string, advisor: string, week: int)
    | InvalidShift(shift: string)

  const DefaultAdvisors: seq<string> := ["Asesor_1", "Asesor_2", "Asesor_3"]
  const DefaultDays: seq<string> := ["Lunes", "Martes", "Miércoles", "Jueves", "Viernes", "Sábado"]

  /** A planner's settings once construction has accepted them. */
  datatype Config = Config(
    advisors: seq<string>,
    days: seq<string>,
    weeks: nat,
    enforceOpeningOnly: bool,
    openingOnlyAdvisor: Option<string>,
    enableWeeklyRotation: bool)

  /** `given or default` for a list argument: a missing or empty list is replaced. */
  function OrDefault(given: Option<seq<string>>, default: seq<string>): (s: seq<string>)
    ensures default != [] ==> s != []
  {
    if given.Some? && given.value != [] then given.value else default
  }

  /** Python truthiness of an optional name: neither None nor the empty string. */
  predicate Named(name: Option<string>) {
    name.Some? && name.value != ""
  }

  /** What construction guarantees about every planner. */
  predicate ValidConfig(c: Config) {
    && |c.advisors| == 3
    && |c.days| >= 1
    && c.weeks >= 1
    && (c.enforceOpeningOnly ==> Named(c.openingOnlyAdvisor))
    && (Named(c.openingOnlyAdvisor) ==> c.openingOnlyAdvisor.value in c.advisors)
  }

  /** No two advisors share a name (the constructor does not check this). */
  predicate DistinctAdvisors(c: Config) {
    forall i, j :: 0 <= i < j < |c.advisors| ==> c.advisors[i] != c.advisors[j]
  }

  /** No day name is listed twice (the constructor does not check this either). */
  predicate DistinctDays(c: Config) {
    forall i, j :: 0 <= i < j < |c.days| ==> c.days[i] != c.days[j]
  }

  /**
   * The checks of `ShiftPlanner.__init__`, in the order the constructor makes them;
   * the first that fails is the error raised.
   */
  function CheckConfig(
    advisors: Option<seq<string>>, days: Option<seq<string>>, weeks: int,
    enforceOpeningOnly: bool, openingOnlyAdvisor: Option<string>, enableWeeklyRotation: bool
  ): (r: Result<Config, PlannerError>)
    ensures r.Success? <==>
      && |OrDefault(advisors, DefaultAdvisors)| == 3
      && weeks >= 1
      && (enforceOpeningOnly ==> Named(openingOnlyAdvisor))
      && (Named(openingOnlyAdvisor) ==> openingOnlyAdvisor.value in OrDefault(advisors, DefaultAdvisors))
    ensures r.Success? ==>
      && ValidConfig(r.value)
      && r.value == Config(OrDefault(advisors, DefaultAdvisors), OrDefault(days, DefaultDays), weeks,
                           enforceOpeningOnly, openingOnlyAdvisor, enableWeeklyRotation)
    ensures |OrDefault(advisors, DefaultAdvisors)| != 3 ==> r == Failure(WrongAdvisorCount)
    ensures |OrDefault(advisors, DefaultAdvisors)| == 3 && weeks < 1 ==> r == Failure(WeeksTooSmall)
    ensures |OrDefault(advisors, DefaultAdvisors)| == 3 && weeks >= 1 && enforceOpeningOnly && !Named(openingOnlyAdvisor)
            ==> r == Failure(MissingOpeningAdvisor)
    ensures r.Failure? && r.error != WrongAdvisorCount && r.error != WeeksTooSmall && r.error != MissingOpeningAdvisor
            ==> r.error == OpeningAdvisorNotListed && Named(openingOnlyAdvisor)
                && openingOnlyAdvisor.value !in OrDefault(advisors, DefaultAdvisors)
  {
    var advisorList := OrDefault(advisors, DefaultAdvisors);
    var dayList := OrDefault(days, DefaultDays);
    if |advisorList| != 3 then Failure(WrongAdvisorCount)
    else if |dayList| < 1 then Failure(NoWorkingDays)
    else if weeks < 1 then Failure(WeeksTooSmall)
    else if enforceOpeningOnly && !Named(openingOnlyAdvisor) then Failure(MissingOpeningAdvisor)
    else if Named(openingOnlyAdvisor) && openingOnlyAdvisor.value !in advisorList then Failure(OpeningAdvisorNotListed)
    else Success(Config(advisorList, dayList, weeks, enforceOpeningOnly, openingOnlyAdvisor, enableWeeklyRotation))
  }

  /**
   * An empty day list is replaced by the default week before the check for
   * "at least one working day" runs, so that error is never raised and an
   * explicitly empty list plans the default six days.
   */
  lemma EmptyDaysUseDefault(
    advisors: Option<seq<string>>, days: Option<seq<string>>, weeks: int,
    enforceOpeningOnly: bool, openingOnlyAdvisor: Option<string>, enableWeeklyRotation: bool)
    ensures CheckConfig(advisors, days, weeks, enforceOpeningOnly, openingOnlyAdvisor, enableWeeklyRotation)
            != Failure(NoWorkingDays)
    ensures days == Some([]) && CheckConfig(advisors, days, weeks, enforceOpeningOnly, openingOnlyAdvisor, enableWeeklyRotation).Success?
            ==> CheckConfig(advisors, days, weeks, enforceOpeningOnly, openingOnlyAdvisor, enableWeeklyRotation).value.days == DefaultDays
  {
  }
}
