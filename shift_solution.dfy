/**
 * The planner's result: the nested dict advisor -> week -> day -> shift label
 * that `build_and_solve` extracts from the solver's values
 * (planning_model.py:142-151), and the rules it then follows, stated on the
 * labels as the planner's tests check them.
 */
module ShiftSolution {
  import opened Wrappers
  import opened Dicts
  import opened CpSat
  import opened PlannerConfig
  import opened ModelBuilder

  /** `{ advisor: { week_index: { day_name: label } } }` */
  type Solution = Dict<string, Dict<int, Dict<string, string>>>

  /** `ShiftPlanner.SHIFT_MAP` */
  const ShiftMap: map<int, string> := map[1 := "Apertura", 2 := "Cierre", 3 := "Intermedio"]

  /** `SHIFT_MAP.values()` */
  const ShiftLabels: set<string> := {"Apertura", "Cierre", "Intermedio"}

  lemma ShiftMapValues()
    ensures ShiftMap.Values == ShiftLabels
  {
    assert ShiftMap[1] == "Apertura" && ShiftMap[2] == "Cierre" && ShiftMap[3] == "Intermedio";
  }

  /** Every dict at every level keeps Python's dict invariant. */
  ghost predicate WellFormed(sol: Solution) {
    && sol.Valid()
    && (forall adv :: adv in sol.entries ==> sol.entries[adv].Valid())
    && (forall adv, w :: adv in sol.entries && w in sol.entries[adv].entries ==> sol.entries[adv].entries[w].Valid())
  }

  /** `sol[adv][w][d]`, or None where a level lacks the key. */
  function At(sol: Solution, adv: string, w: int, d: string): (cell: Option<string>) {
    if adv in sol.entries && w in sol.entries[adv].entries && d in sol.entries[adv].entries[w].entries
    then Some(sol.entries[adv].entries[w].entries[d])
    else None
  }

  // ---- Extraction, one level per loop of build_and_solve ----

  /**
   * `SHIFT_MAP[solver.Value(x[advisor, w, day])]`. The solver only reports
   * values in the variables' range 1..3, which `ShiftMap` covers; the empty
   * label outside that range is never produced for a solver's assignment
   * (`LabelOfRole`).
   */
  function Label(a: map<Key, int>, k: Key): (shift: string) {
    if k in a && a[k] in ShiftMap then ShiftMap[a[k]] else ""
  }

  lemma LabelOfRole(a: map<Key, int>, k: Key)
    requires k in a && 1 <= a[k] <= 3
    ensures Label(a, k) == ShiftMap[a[k]] && Label(a, k) in ShiftLabels
  {
    assert a[k] in ShiftMap;
  }

  /** `sol[advisor][w]` after the day loop has run over the first `n` days. */
  function ExtractDays(c: Config, a: map<Key, int>, adv: string, w: int, n: nat): (days: Dict<string, string>)
    requires n <= |c.days|
  {
    if n == 0 then Empty()
    else ExtractDays(c, a, adv, w, n - 1).Put(c.days[n - 1], Label(a, Key(adv, w, c.days[n - 1])))
  }

  /** `sol[advisor]` after the week loop has run over weeks 0 .. n-1. */
  function ExtractWeeks(c: Config, a: map<Key, int>, adv: string, n: nat): (weeks: Dict<int, Dict<string, string>>)
  {
    if n == 0 then Empty()
    else ExtractWeeks(c, a, adv, n - 1).Put(n - 1, ExtractDays(c, a, adv, n - 1, |c.days|))
  }

  /** `sol` after the advisor loop has run over the first `n` advisors. */
  function ExtractAdvisors(c: Config, a: map<Key, int>, n: nat): (sol: Solution)
    requires n <= |c.advisors|
  {
    if n == 0 then Empty()
    else
      var adv := c.advisors[n - 1];
      ExtractAdvisors(c, a, n - 1).Put(adv, ExtractWeeks(c, a, adv, c.weeks))
  }

  /** The day loop records exactly the first `n` days, each with its label. */
  lemma {:induction false} ExtractDaysContent(c: Config, a: map<Key, int>, adv: string, w: int, n: nat, d: string)
    requires n <= |c.days|
    ensures d in ExtractDays(c, a, adv, w, n).entries <==> d in c.days[..n]
    ensures d in c.days[..n] ==> ExtractDays(c, a, adv, w, n).entries[d] == Label(a, Key(adv, w, d))
  {
    if n > 0 {
      ExtractDaysContent(c, a, adv, w, n - 1, d);
      PrefixStep(c.days, n, d);
    }
  }

  /** The complete day loop records exactly the configured days, each with its label. */
  lemma ExtractedDays(c: Config, a: map<Key, int>, adv: string, w: int, d: string)
    ensures d in ExtractDays(c, a, adv, w, |c.days|).entries <==> d in c.days
    ensures d in c.days ==> ExtractDays(c, a, adv, w, |c.days|).entries[d] == Label(a, Key(adv, w, d))
  {
    ExtractDaysContent(c, a, adv, w, |c.days|, d);
    assert c.days[..|c.days|] == c.days;
  }

  /** With distinct day names, the n-th day is new when the loop reaches it, so it is appended to the keys. */
  lemma DayAppended(c: Config, a: map<Key, int>, adv: string, w: int, n: nat)
    requires 0 < n <= |c.days| && DistinctDays(c)
    ensures ExtractDays(c, a, adv, w, n).keys == ExtractDays(c, a, adv, w, n - 1).keys + [c.days[n - 1]]
  {
    var d := c.days[n - 1];
    ExtractDaysContent(c, a, adv, w, n - 1, d);
    assert d !in c.days[..n - 1];
    ExtractDays(c, a, adv, w, n - 1).PutNewKey(d, Label(a, Key(adv, w, d)));
  }

  /** With distinct day names, the day dict's keys are the first `n` days in configured order. */
  lemma {:induction false} ExtractDaysKeys(c: Config, a: map<Key, int>, adv: string, w: int, n: nat)
    requires n <= |c.days| && DistinctDays(c)
    ensures |ExtractDays(c, a, adv, w, n).keys| == n
    ensures forall j :: 0 <= j < n ==> ExtractDays(c, a, adv, w, n).keys[j] == c.days[j]
  {
    if n > 0 {
      ExtractDaysKeys(c, a, adv, w, n - 1);
      DayAppended(c, a, adv, w, n);
      AppendAgrees(ExtractDays(c, a, adv, w, n - 1).keys, c.days[n - 1], c.days);
    }
  }

  /** The week loop records exactly weeks 0 .. n-1. */
  lemma {:induction false} ExtractWeeksKeys(c: Config, a: map<Key, int>, adv: string, n: nat)
    ensures ExtractWeeks(c, a, adv, n).keys == seq(n, w => w)
    ensures forall w :: w in ExtractWeeks(c, a, adv, n).entries <==> 0 <= w < n
  {
    if n > 0 {
      ExtractWeeksKeys(c, a, adv, n - 1);
      assert seq(n, w => w) == seq(n - 1, w => w) + [n - 1];
    }
  }

  /** Week `w` holds the complete day dict of that week. */
  lemma {:induction false} ExtractWeeksEntries(c: Config, a: map<Key, int>, adv: string, n: nat)
    ensures forall w :: 0 <= w < n ==>
              w in ExtractWeeks(c, a, adv, n).entries && ExtractWeeks(c, a, adv, n).entries[w] == ExtractDays(c, a, adv, w, |c.days|)
  {
    if n > 0 {
      var prev := ExtractWeeks(c, a, adv, n - 1);
      var days := ExtractDays(c, a, adv, n - 1, |c.days|);
      assert ExtractWeeks(c, a, adv, n).entries == prev.entries[n - 1 := days];
      ExtractWeeksEntries(c, a, adv, n - 1);
    }
  }

  /** The advisor loop records exactly the first `n` advisors, each with the complete week dict. */
  lemma {:induction false} ExtractAdvisorsContent(c: Config, a: map<Key, int>, n: nat, adv: string)
    requires n <= |c.advisors|
    ensures adv in ExtractAdvisors(c, a, n).entries <==> adv in c.advisors[..n]
    ensures adv in c.advisors[..n] ==> ExtractAdvisors(c, a, n).entries[adv] == ExtractWeeks(c, a, adv, c.weeks)
  {
    if n > 0 {
      var last := c.advisors[n - 1];
      var prev := ExtractAdvisors(c, a, n - 1);
      var sol := ExtractAdvisors(c, a, n);
      assert sol.entries == prev.entries[last := ExtractWeeks(c, a, last, c.weeks)];
      PrefixStep(c.advisors, n, adv);
      if adv != last {
        ExtractAdvisorsContent(c, a, n - 1, adv);
        assert adv in sol.entries <==> adv in prev.entries;
      }
    }
  }

  /** With distinct advisor names, the n-th advisor is new when the loop reaches it, so it is appended to the keys. */
  lemma AdvisorAppended(c: Config, a: map<Key, int>, n: nat)
    requires 0 < n <= |c.advisors| && DistinctAdvisors(c)
    ensures ExtractAdvisors(c, a, n).keys == ExtractAdvisors(c, a, n - 1).keys + [c.advisors[n - 1]]
  {
    var adv := c.advisors[n - 1];
    ExtractAdvisorsContent(c, a, n - 1, adv);
    assert adv !in c.advisors[..n - 1];
    ExtractAdvisors(c, a, n - 1).PutNewKey(adv, ExtractWeeks(c, a, adv, c.weeks));
  }

  /** With distinct advisor names, the solution's keys are the first `n` advisors in configured order. */
  lemma {:induction false} ExtractAdvisorsKeys(c: Config, a: map<Key, int>, n: nat)
    requires n <= |c.advisors| && DistinctAdvisors(c)
    ensures |ExtractAdvisors(c, a, n).keys| == n
    ensures forall i :: 0 <= i < n ==> ExtractAdvisors(c, a, n).keys[i] == c.advisors[i]
  {
    if n > 0 {
      ExtractAdvisorsKeys(c, a, n - 1);
      AdvisorAppended(c, a, n);
      AppendAgrees(ExtractAdvisors(c, a, n - 1).keys, c.advisors[n - 1], c.advisors);
    }
  }

  lemma {:induction false} ExtractDaysValid(c: Config, a: map<Key, int>, adv: string, w: int, n: nat)
    requires n <= |c.days|
    ensures ExtractDays(c, a, adv, w, n).Valid()
  {
    if n > 0 {
      ExtractDaysValid(c, a, adv, w, n - 1);
      ExtractDays(c, a, adv, w, n - 1).PutValid(c.days[n - 1], Label(a, Key(adv, w, c.days[n - 1])));
    }
  }

  lemma ExtractWeeksValid(c: Config, a: map<Key, int>, adv: string, n: nat)
    ensures ExtractWeeks(c, a, adv, n).Valid()
  {
    ExtractWeeksKeys(c, a, adv, n);
  }

  lemma {:induction false} ExtractAdvisorsValid(c: Config, a: map<Key, int>, n: nat)
    requires n <= |c.advisors|
    ensures ExtractAdvisors(c, a, n).Valid()
  {
    if n > 0 {
      var adv := c.advisors[n - 1];
      ExtractAdvisorsValid(c, a, n - 1);
      ExtractAdvisors(c, a, n - 1).PutValid(adv, ExtractWeeks(c, a, adv, c.weeks));
    }
  }

  /** The solution extracted from solver values `a`. */
  function Extracted(c: Config, a: map<Key, int>): (sol: Solution)
  {
    ExtractAdvisors(c, a, |c.advisors|)
  }

  /** Under each advisor, the extracted solution holds that advisor's complete week dict. */
  lemma ExtractedAdvisors(c: Config, a: map<Key, int>)
    ensures forall adv :: adv in Extracted(c, a).entries <==> adv in c.advisors
    ensures forall adv :: adv in c.advisors ==> Extracted(c, a).entries[adv] == ExtractWeeks(c, a, adv, c.weeks)
  {
    assert c.advisors[..|c.advisors|] == c.advisors;
    forall adv ensures adv in Extracted(c, a).entries <==> adv in c.advisors {
      ExtractAdvisorsContent(c, a, |c.advisors|, adv);
    }
    forall adv | adv in c.advisors ensures Extracted(c, a).entries[adv] == ExtractWeeks(c, a, adv, c.weeks) {
      ExtractAdvisorsContent(c, a, |c.advisors|, adv);
    }
  }

  /** Every dict in the extracted solution keeps the dict invariant. */
  lemma ExtractedWellFormed(c: Config, a: map<Key, int>)
    ensures WellFormed(Extracted(c, a))
  {
    var sol := Extracted(c, a);
    ExtractAdvisorsValid(c, a, |c.advisors|);
    ExtractedAdvisors(c, a);
    forall adv | adv in sol.entries ensures sol.entries[adv].Valid() {
      ExtractWeeksValid(c, a, adv, c.weeks);
    }
    forall adv, w | adv in sol.entries && w in sol.entries[adv].entries ensures sol.entries[adv].entries[w].Valid() {
      ExtractWeeksKeys(c, a, adv, c.weeks);
      ExtractWeeksEntries(c, a, adv, c.weeks);
      ExtractDaysValid(c, a, adv, w, |c.days|);
    }
  }

  /**
   * The extracted solution has exactly the configured advisors, each with
   * exactly `weeks` weeks 0 .. weeks-1, each with exactly the configured days.
   */
  lemma ExtractedShape(c: Config, a: map<Key, int>)
    ensures forall adv :: adv in Extracted(c, a).entries <==> adv in c.advisors
    ensures forall adv :: adv in c.advisors ==>
      && Extracted(c, a).entries[adv].Len() == c.weeks
      && (forall w :: w in Extracted(c, a).entries[adv].entries <==> 0 <= w < c.weeks)
      && (forall w :: 0 <= w < c.weeks ==>
            forall d :: d in Extracted(c, a).entries[adv].entries[w].entries <==> d in c.days)
  {
    var sol := Extracted(c, a);
    ExtractedAdvisors(c, a);
    forall adv | adv in c.advisors
      ensures sol.entries[adv].Len() == c.weeks
      ensures forall w :: w in sol.entries[adv].entries <==> 0 <= w < c.weeks
      ensures forall w :: 0 <= w < c.weeks ==> forall d :: d in sol.entries[adv].entries[w].entries <==> d in c.days
    {
      ExtractWeeksKeys(c, a, adv, c.weeks);
      ExtractWeeksEntries(c, a, adv, c.weeks);
      forall w, d | 0 <= w < c.weeks ensures d in sol.entries[adv].entries[w].entries <==> d in c.days {
        ExtractedDays(c, a, adv, w, d);
      }
    }
  }

  /** The extracted solution holds, at every variable's key, the label of the variable's value. */
  lemma ExtractedAt(c: Config, a: map<Key, int>)
    ensures forall k :: IsVarKey(c, k) ==> At(Extracted(c, a), k.advisor, k.week, k.day) == Some(Label(a, k))
  {
    var sol := Extracted(c, a);
    ExtractedAdvisors(c, a);
    forall k | IsVarKey(c, k) ensures At(sol, k.advisor, k.week, k.day) == Some(Label(a, k)) {
      ExtractWeeksKeys(c, a, k.advisor, c.weeks);
      ExtractWeeksEntries(c, a, k.advisor, c.weeks);
      ExtractedDays(c, a, k.advisor, k.week, k.day);
    }
  }

  // ---- The rules, on labels ----

  /** The labels the advisors hold on day `d` of week `w`. */
  function ShiftsOn(c: Config, sol: Solution, w: int, d: string): (shifts: set<string>) {
    set adv | adv in c.advisors && At(sol, adv, w, d).Some? :: At(sol, adv, w, d).value
  }

  /**
   * What the planner promises of its result: every day shows all three labels,
   * an advisor's label is the same all week, the opening-only advisor is always
   * "Apertura", and with rotation no other advisor repeats a label in two
   * consecutive weeks.
   */
  ghost predicate MeetsRules(c: Config, sol: Solution)
    requires ValidConfig(c)
  {
    && (forall w, d :: 0 <= w < c.weeks && d in c.days ==> ShiftsOn(c, sol, w, d) == ShiftLabels)
    && (forall adv, w, d :: adv in c.advisors && 0 <= w < c.weeks && d in c.days ==>
          At(sol, adv, w, d) == At(sol, adv, w, c.days[0]))
    && (c.enforceOpeningOnly ==>
          forall w, d :: 0 <= w < c.weeks && d in c.days ==> At(sol, c.openingOnlyAdvisor.value, w, d) == Some("Apertura"))
    && (c.enableWeeklyRotation && c.weeks > 1 ==>
          forall adv, w :: adv in c.advisors && !ExemptFromRotation(c, adv) && 0 <= w < c.weeks - 1 ==>
            At(sol, adv, w, c.days[0]) != At(sol, adv, w + 1, c.days[0]))
  }

  lemma LabelsOfThreeRoles(x: int, y: int, z: int)
    requires {x, y, z} == {1, 2, 3}
    ensures x in ShiftMap && y in ShiftMap && z in ShiftMap
    ensures {ShiftMap[x], ShiftMap[y], ShiftMap[z]} == ShiftLabels
  {
    assert x in {1, 2, 3} && y in {1, 2, 3} && z in {1, 2, 3};
    ThreeRoles(x, y, z);
  }

  /** With every advisor holding a label on the day, the day's labels are those three. */
  lemma ShiftsOnDay(c: Config, sol: Solution, w: int, d: string, x: string, y: string, z: string)
    requires |c.advisors| == 3
    requires At(sol, c.advisors[0], w, d) == Some(x)
    requires At(sol, c.advisors[1], w, d) == Some(y)
    requires At(sol, c.advisors[2], w, d) == Some(z)
    ensures ShiftsOn(c, sol, w, d) == {x, y, z}
  {
    forall l | l in ShiftsOn(c, sol, w, d) ensures l in {x, y, z} {
      var adv :| adv in c.advisors && At(sol, adv, w, d).Some? && l == At(sol, adv, w, d).value;
      var i :| 0 <= i < 3 && c.advisors[i] == adv;
    }
    forall i | 0 <= i < 3 ensures At(sol, c.advisors[i], w, d).value in ShiftsOn(c, sol, w, d) {
      assert c.advisors[i] in c.advisors;
    }
  }

  lemma ExtractedCovers(c: Config, a: map<Key, int>, w: int, d: string)
    requires ValidConfig(c) && InDomain(c, a) && DailyCoverage(c, a) && 0 <= w < c.weeks && d in c.days
    ensures ShiftsOn(c, Extracted(c, a), w, d) == ShiftLabels
  {
    var k0, k1, k2 := Key(c.advisors[0], w, d), Key(c.advisors[1], w, d), Key(c.advisors[2], w, d);
    assert IsVarKey(c, k0) && IsVarKey(c, k1) && IsVarKey(c, k2);
    ExtractedAt(c, a);
    RolesOnDay(c, a, w, d);
    LabelsOfThreeRoles(a[k0], a[k1], a[k2]);
    ShiftsOnDay(c, Extracted(c, a), w, d, Label(a, k0), Label(a, k1), Label(a, k2));
  }

  lemma ExtractedKeepsWeeks(c: Config, a: map<Key, int>)
    requires ValidConfig(c) && InDomain(c, a) && WeeklyConsistency(c, a)
    ensures forall adv, w, d :: adv in c.advisors && 0 <= w < c.weeks && d in c.days ==>
              At(Extracted(c, a), adv, w, d) == At(Extracted(c, a), adv, w, c.days[0])
  {
    ExtractedAt(c, a);
    forall adv, w, d | adv in c.advisors && 0 <= w < c.weeks && d in c.days
      ensures At(Extracted(c, a), adv, w, d) == At(Extracted(c, a), adv, w, c.days[0])
    {
      var k, k0 := Key(adv, w, d), Key(adv, w, c.days[0]);
      assert IsVarKey(c, k) && IsVarKey(c, k0);
      assert a[k] == a[k0];
    }
  }

  lemma ExtractedPinned(c: Config, a: map<Key, int>)
    requires ValidConfig(c) && InDomain(c, a) && OpeningPinned(c, a)
    ensures c.enforceOpeningOnly ==>
              forall w, d :: 0 <= w < c.weeks && d in c.days ==>
                At(Extracted(c, a), c.openingOnlyAdvisor.value, w, d) == Some("Apertura")
  {
    ExtractedAt(c, a);
    if c.enforceOpeningOnly {
      forall w, d | 0 <= w < c.weeks && d in c.days
        ensures At(Extracted(c, a), c.openingOnlyAdvisor.value, w, d) == Some("Apertura")
      {
        var k := Key(c.openingOnlyAdvisor.value, w, d);
        assert IsVarKey(c, k);
        assert a[k] == 1;
      }
    }
  }

  lemma ExtractedRotates(c: Config, a: map<Key, int>)
    requires ValidConfig(c) && InDomain(c, a) && WeeklyRotation(c, a)
    ensures c.enableWeeklyRotation && c.weeks > 1 ==>
              forall adv, w :: adv in c.advisors && !ExemptFromRotation(c, adv) && 0 <= w < c.weeks - 1 ==>
                At(Extracted(c, a), adv, w, c.days[0]) != At(Extracted(c, a), adv, w + 1, c.days[0])
  {
    ExtractedAt(c, a);
    if c.enableWeeklyRotation && c.weeks > 1 {
      forall adv, w | adv in c.advisors && !ExemptFromRotation(c, adv) && 0 <= w < c.weeks - 1
        ensures At(Extracted(c, a), adv, w, c.days[0]) != At(Extracted(c, a), adv, w + 1, c.days[0])
      {
        var k, k' := Key(adv, w, c.days[0]), Key(adv, w + 1, c.days[0]);
        assert IsVarKey(c, k) && IsVarKey(c, k');
        assert a[k] != a[k'];
        assert a[k] in {1, 2, 3} && a[k'] in {1, 2, 3};
      }
    }
  }

  /** The solution extracted from any satisfying assignment follows the rules, on labels. */
  lemma ExtractedMeetsRules(c: Config, a: map<Key, int>)
    requires ValidConfig(c) && Satisfies(a, Variables(c), ModelConstraints(c))
    ensures InDomain(c, a) && MeetsRules(c, Extracted(c, a))
  {
    ModelMeaning(c, a);
    forall w, d | 0 <= w < c.weeks && d in c.days ensures ShiftsOn(c, Extracted(c, a), w, d) == ShiftLabels {
      ExtractedCovers(c, a, w, d);
    }
    ExtractedKeepsWeeks(c, a);
    ExtractedPinned(c, a);
    ExtractedRotates(c, a);
  }
}
