/**
 * `ShiftPlanner.validate_solution_structure` (planning_model.py:180-199): walks
 * the listed advisors, then weeks 0 .. weeks-1, then the listed days, and
 * fails with the first missing key, wrong week count or unknown label it meets.
 * Advisors, weeks and days beyond the listed ones are not looked at.
 */
module StructureCheck {
  import opened Wrappers
  import opened Dicts
  import opened PlannerConfig
  import opened ModelBuilder
  import opened ShiftSolution

  /** Day `d` is present and holds one of the three labels. */
  predicate DayOk(days: Dict<string, string>, d: string) {
    d in days.entries && days.entries[d] in ShiftLabels
  }

  /** Every listed day of week `w` is present with a valid label. */
  predicate DaysOk(days: Dict<string, string>, listed: seq<string>) {
    forall d :: d in listed ==> DayOk(days, d)
  }

  /** Every week 0 .. weeks-1 is present with its listed days. */
  predicate WeeksOk(weeksDict: Dict<int, Dict<string, string>>, weeks: int, listed: seq<string>) {
    forall w :: 0 <= w < weeks ==> w in weeksDict.entries && DaysOk(weeksDict.entries[w], listed)
  }

  /** What the validator accepts: each listed advisor with exactly `weeks` weeks, each complete. */
  predicate WellShaped(sol: Solution, advisors: seq<string>, weeks: int, days: seq<string>) {
    forall adv :: adv in advisors ==>
      && adv in sol.entries
      && sol.entries[adv].Len() == weeks
      && WeeksOk(sol.entries[adv], weeks, days)
  }

  /** The error raised for a listed day that is not `DayOk`. */
  function DayError(days: Dict<string, string>, adv: string, w: int, d: string): (e: PlannerError) {
    if d !in days.entries then MissingDay(d, adv, w) else InvalidShift(days.entries[d])
  }

  /** The inner `for d in days` loop, from position `i` on: it fails at the first listed day that is not `DayOk`. */
  function CheckDays(days: Dict<string, string>, adv: string, w: int, listed: seq<string>, i: nat): (r: Outcome<PlannerError>)
    requires i <= |listed|
    decreases |listed| - i
    ensures r.Pass? <==> forall j :: i <= j < |listed| ==> DayOk(days, listed[j])
    ensures r.Fail? ==>
      exists j :: (i <= j < |listed| && !DayOk(days, listed[j]) &&
                   (forall k :: i <= k < j ==> DayOk(days, listed[k])) &&
                   r.error == DayError(days, adv, w, listed[j]))
  {
    if i == |listed| then Pass
    else if listed[i] !in days.entries then Fail(MissingDay(listed[i], adv, w))
    else if days.entries[listed[i]] !in ShiftLabels then Fail(InvalidShift(days.entries[listed[i]]))
    else CheckDays(days, adv, w, listed, i + 1)
  }

  /**
   * The `for w in range(weeks)` loop, from week `w` on: it fails at the first
   * week that is missing or whose day loop fails, with that week's error.
   */
  function CheckWeeks(weeksDict: Dict<int, Dict<string, string>>, adv: string, w: int, weeks: int, listed: seq<string>): (r: Outcome<PlannerError>)
    decreases weeks - w
    ensures r.Pass? <==> forall v :: w <= v < weeks ==> v in weeksDict.entries && DaysOk(weeksDict.entries[v], listed)
    ensures r.Fail? ==>
      exists v :: (w <= v < weeks &&
                   (forall u :: w <= u < v ==> u in weeksDict.entries && DaysOk(weeksDict.entries[u], listed)) &&
                   (if v !in weeksDict.entries then r.error == MissingWeek(v, adv)
                    else !DaysOk(weeksDict.entries[v], listed) && r == CheckDays(weeksDict.entries[v], adv, v, listed, 0)))
  {
    if w >= weeks then Pass
    else if w !in weeksDict.entries then Fail(MissingWeek(w, adv))
    else
      var days := CheckDays(weeksDict.entries[w], adv, w, listed, 0);
      if days.Fail? then days else CheckWeeks(weeksDict, adv, w + 1, weeks, listed)
  }

  /** The checks made for one listed advisor: presence, week count, then the week loop. */
  function CheckAdvisor(sol: Solution, adv: string, weeks: int, days: seq<string>): (r: Outcome<PlannerError>)
    ensures r.Pass? <==> adv in sol.entries && sol.entries[adv].Len() == weeks && WeeksOk(sol.entries[adv], weeks, days)
  {
    if adv !in sol.entries then Fail(MissingAdvisor(adv))
    else if sol.entries[adv].Len() != weeks then Fail(WrongWeekCount(adv))
    else CheckWeeks(sol.entries[adv], adv, 0, weeks, days)
  }

  /** The `for adv in advisors` loop, from position `i` on: it fails with the first failing advisor's error. */
  function CheckAdvisors(sol: Solution, advisors: seq<string>, weeks: int, days: seq<string>, i: nat): (r: Outcome<PlannerError>)
    requires i <= |advisors|
    decreases |advisors| - i
    ensures r.Pass? <==> forall j :: i <= j < |advisors| ==> CheckAdvisor(sol, advisors[j], weeks, days).Pass?
    ensures r.Fail? ==>
      exists j :: (i <= j < |advisors| &&
                   (forall k :: i <= k < j ==> CheckAdvisor(sol, advisors[k], weeks, days).Pass?) &&
                   r == CheckAdvisor(sol, advisors[j], weeks, days))
  {
    if i == |advisors| then Pass
    else
      var first := CheckAdvisor(sol, advisors[i], weeks, days);
      if first.Fail? then first else CheckAdvisors(sol, advisors, weeks, days, i + 1)
  }

  /**
   * `validate_solution_structure(sol, advisors, weeks, days)`: passes exactly
   * when the solution is well shaped for the listed keys. A Python dict is
   * stood for by a `Dict` that keeps `Dict.Valid()` (as every solution the
   * planner builds does, `ExtractedWellFormed`); only for those is `Len()`
   * Python's `len`.
   */
  function ValidateSolutionStructure(sol: Solution, advisors: seq<string>, weeks: int, days: seq<string>): (r: Outcome<PlannerError>)
    ensures r.Pass? <==> WellShaped(sol, advisors, weeks, days)
    ensures r.Fail? ==> r.error.MissingAdvisor? || r.error.WrongWeekCount? || r.error.MissingWeek? ||
                        r.error.MissingDay? || r.error.InvalidShift?
  {
    var r := CheckAdvisors(sol, advisors, weeks, days, 0);
    assert r.Pass? <==> WellShaped(sol, advisors, weeks, days) by {
      forall adv | adv in advisors ensures CheckAdvisor(sol, adv, weeks, days).Pass? <==>
        adv in sol.entries && sol.entries[adv].Len() == weeks && WeeksOk(sol.entries[adv], weeks, days) {
      }
    }
    r
  }

  /** The defect that error `e` reports is really present in `sol` at a listed advisor, week or day. */
  predicate ErrorIsReal(sol: Solution, advisors: seq<string>, weeks: int, days: seq<string>, e: PlannerError) {
    match e
    case MissingAdvisor(adv) => adv in advisors && adv !in sol.entries
    case WrongWeekCount(adv) => adv in advisors && adv in sol.entries && sol.entries[adv].Len() != weeks
    case MissingWeek(w, adv) =>
      adv in advisors && adv in sol.entries && 0 <= w < weeks && w !in sol.entries[adv].entries
    case MissingDay(d, adv, w) =>
      adv in advisors && 0 <= w < weeks && d in days &&
      adv in sol.entries && w in sol.entries[adv].entries && d !in sol.entries[adv].entries[w].entries
    case InvalidShift(shift) =>
      shift !in ShiftLabels &&
      exists adv, w, d :: adv in advisors && 0 <= w < weeks && d in days && At(sol, adv, w, d) == Some(shift)
    case _ => false
  }

  /** An error from a listed advisor's day loop reports a real missing day or unknown label. */
  lemma DayErrorIsReal(sol: Solution, advisors: seq<string>, weeks: int, days: seq<string>, adv: string, w: int)
    requires adv in advisors && adv in sol.entries && 0 <= w < weeks && w in sol.entries[adv].entries
    ensures var r := CheckDays(sol.entries[adv].entries[w], adv, w, days, 0);
            r.Fail? ==> ErrorIsReal(sol, advisors, weeks, days, r.error)
  {
    var dd := sol.entries[adv].entries[w];
    var r := CheckDays(dd, adv, w, days, 0);
    if r.Fail? {
      var i :| 0 <= i < |days| && !DayOk(dd, days[i]) && r.error == DayError(dd, adv, w, days[i]);
      var d := days[i];
      assert d in days;
      if d in dd.entries {
        var shift := dd.entries[d];
        assert DayError(dd, adv, w, d) == InvalidShift(shift);
        assert !DayOk(dd, d);
        assert r.error == InvalidShift(shift) && shift !in ShiftLabels;
        assert At(sol, adv, w, d) == Some(shift);
      } else {
        assert DayError(dd, adv, w, d) == MissingDay(d, adv, w);
      }
    }
  }

  /** An error from a listed advisor's week loop reports a real missing week, day or unknown label. */
  lemma WeekErrorIsReal(sol: Solution, advisors: seq<string>, weeks: int, days: seq<string>, adv: string)
    requires adv in advisors && adv in sol.entries
    ensures var r := CheckWeeks(sol.entries[adv], adv, 0, weeks, days);
            r.Fail? ==> ErrorIsReal(sol, advisors, weeks, days, r.error)
  {
    var wd := sol.entries[adv];
    var r := CheckWeeks(wd, adv, 0, weeks, days);
    if r.Fail? {
      var v :| 0 <= v < weeks &&
               (if v !in wd.entries then r.error == MissingWeek(v, adv)
                else r == CheckDays(wd.entries[v], adv, v, days, 0));
      if v in wd.entries {
        DayErrorIsReal(sol, advisors, weeks, days, adv, v);
      }
    }
  }

  /** Every error the validator raises points at a real defect in a listed advisor, week or day. */
  lemma ValidationErrorIsReal(sol: Solution, advisors: seq<string>, weeks: int, days: seq<string>)
    ensures var r := ValidateSolutionStructure(sol, advisors, weeks, days);
            r.Fail? ==> ErrorIsReal(sol, advisors, weeks, days, r.error)
  {
    var r := ValidateSolutionStructure(sol, advisors, weeks, days);
    if r.Fail? {
      var j :| 0 <= j < |advisors| && r == CheckAdvisor(sol, advisors[j], weeks, days);
      var adv := advisors[j];
      assert adv in advisors;
      if adv in sol.entries && sol.entries[adv].Len() == weeks {
        WeekErrorIsReal(sol, advisors, weeks, days, adv);
      }
    }
  }

  /** Advisors outside the listed ones are never looked at: adding one does not change the verdict. */
  lemma ExtraAdvisorIgnored(sol: Solution, advisors: seq<string>, weeks: int, days: seq<string>, extra: string,
                            weeksDict: Dict<int, Dict<string, string>>)
    requires extra !in advisors
    ensures ValidateSolutionStructure(sol.Put(extra, weeksDict), advisors, weeks, days).Pass? <==>
            ValidateSolutionStructure(sol, advisors, weeks, days).Pass?
  {
  }

  /** Days outside the listed ones are never looked at: adding one to a week does not change the verdict. */
  lemma ExtraDayIgnored(days: Dict<string, string>, listed: seq<string>, extra: string, shift: string)
    requires extra !in listed
    ensures DaysOk(days.Put(extra, shift), listed) <==> DaysOk(days, listed)
  {
  }

  /** A solution extracted from values in the variables' domain passes the validator. */
  lemma ExtractedIsWellShaped(c: Config, a: map<Key, int>)
    requires InDomain(c, a)
    ensures ValidateSolutionStructure(Extracted(c, a), c.advisors, c.weeks, c.days) == Pass
  {
    var sol := Extracted(c, a);
    ExtractedShape(c, a);
    ExtractedAt(c, a);
    forall adv, w, d | adv in c.advisors && 0 <= w < c.weeks && d in c.days ensures DayOk(sol.entries[adv].entries[w], d) {
      var k := Key(adv, w, d);
      assert IsVarKey(c, k);
      LabelOfRole(a, k);
    }
  }
}
