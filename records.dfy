/**
 * `solution_to_dataframe` / `solution_to_json` (planning_model.py:154-177):
 * the nested solution flattened, in the dicts' insertion order (advisor, then
 * week, then day), into records with the columns Asesor, Semana, Día, Turno.
 * Weeks are 0-based in the solution and 1-based in the records.
 */
module Records {
  import opened Wrappers
  import opened Dicts
  import opened CpSat
  import opened PlannerConfig
  import opened ModelBuilder
  import opened ShiftSolution

  /** One row `{"Asesor": ..., "Semana": w + 1, "Día": ..., "Turno": ...}`. */
  datatype Row = Row(asesor: string, semana: int, dia: string, turno: string)

  /** The rows of one week's day dict, for its first `n` days in insertion order. */
  function DayRows(adv: string, w: int, days: Dict<string, string>, n: nat): (rows: seq<Row>)
    requires days.Valid() && n <= |days.keys|
  {
    if n == 0 then []
    else DayRows(adv, w, days, n - 1) + [Row(adv, w + 1, days.keys[n - 1], days.entries[days.keys[n - 1]])]
  }

  /** Every dict below an advisor keeps the dict invariant. */
  predicate WeeksValid(weeks: Dict<int, Dict<string, string>>) {
    weeks.Valid() && forall w :: w in weeks.entries ==> weeks.entries[w].Valid()
  }

  /** The rows of one advisor's week dict, for its first `n` weeks in insertion order. */
  function WeekRows(adv: string, weeks: Dict<int, Dict<string, string>>, n: nat): (rows: seq<Row>)
    requires WeeksValid(weeks) && n <= |weeks.keys|
  {
    if n == 0 then []
    else
      var w := weeks.keys[n - 1];
      var days := weeks.entries[w];
      WeekRows(adv, weeks, n - 1) + DayRows(adv, w, days, |days.keys|)
  }

  /** The rows of the whole solution, for its first `n` advisors in insertion order. */
  function AdvisorRows(sol: Solution, n: nat): (rows: seq<Row>)
    requires WellFormed(sol) && n <= |sol.keys|
  {
    if n == 0 then []
    else
      var adv := sol.keys[n - 1];
      AdvisorRows(sol, n - 1) + WeekRows(adv, sol.entries[adv], |sol.entries[adv].keys|)
  }

  /** The records `solution_to_dataframe` builds from a stored solution. */
  function Rows(sol: Solution): (rows: seq<Row>)
    requires WellFormed(sol)
  {
    AdvisorRows(sol, |sol.keys|)
  }

  /** A day's rows are exactly its first `n` days, each with its label. */
  lemma {:induction false} DayRowsMembership(adv: string, w: int, days: Dict<string, string>, n: nat, r: Row)
    requires days.Valid() && n <= |days.keys|
    ensures r in DayRows(adv, w, days, n) <==>
              r.asesor == adv && r.semana == w + 1 && r.dia in days.keys[..n] && days.entries[r.dia] == r.turno
  {
    if n > 0 {
      DayRowsMembership(adv, w, days, n - 1, r);
      PrefixStep(days.keys, n, r.dia);
    }
  }

  /** An advisor's rows are exactly the days of its first `n` weeks, each with its label. */
  lemma {:induction false} WeekRowsMembership(adv: string, weeks: Dict<int, Dict<string, string>>, n: nat, r: Row)
    requires WeeksValid(weeks) && n <= |weeks.keys|
    ensures r in WeekRows(adv, weeks, n) <==>
              r.asesor == adv && r.semana - 1 in weeks.keys[..n] &&
              r.dia in weeks.entries[r.semana - 1].entries && weeks.entries[r.semana - 1].entries[r.dia] == r.turno
  {
    if n > 0 {
      var w := weeks.keys[n - 1];
      var days := weeks.entries[w];
      var prev, last := WeekRows(adv, weeks, n - 1), DayRows(adv, w, days, |days.keys|);
      assert r in WeekRows(adv, weeks, n) <==> r in prev || r in last;
      WeekRowsMembership(adv, weeks, n - 1, r);
      DayRowsMembership(adv, w, days, |days.keys|, r);
      PrefixStep(weeks.keys, n, r.semana - 1);
      assert days.keys[..|days.keys|] == days.keys;
    }
  }

  /** One advisor's rows are exactly the labels stored under that advisor. */
  lemma AdvisorRowsOfOne(sol: Solution, adv: string, r: Row)
    requires WellFormed(sol) && adv in sol.entries
    ensures r in WeekRows(adv, sol.entries[adv], |sol.entries[adv].keys|) <==>
              r.asesor == adv && At(sol, r.asesor, r.semana - 1, r.dia) == Some(r.turno)
  {
    var weeks := sol.entries[adv];
    WeekRowsMembership(adv, weeks, |weeks.keys|, r);
    assert weeks.keys[..|weeks.keys|] == weeks.keys;
  }

  /** The solution's rows are exactly the stored labels of its first `n` advisors. */
  lemma {:induction false} AdvisorRowsMembership(sol: Solution, n: nat, r: Row)
    requires WellFormed(sol) && n <= |sol.keys|
    ensures r in AdvisorRows(sol, n) <==> r.asesor in sol.keys[..n] && At(sol, r.asesor, r.semana - 1, r.dia) == Some(r.turno)
  {
    if n > 0 {
      var adv := sol.keys[n - 1];
      var prev, last := AdvisorRows(sol, n - 1), WeekRows(adv, sol.entries[adv], |sol.entries[adv].keys|);
      assert r in AdvisorRows(sol, n) <==> r in prev || r in last;
      AdvisorRowsMembership(sol, n - 1, r);
      AdvisorRowsOfOne(sol, adv, r);
      PrefixStep(sol.keys, n, r.asesor);
    }
  }

  /**
   * Round trip: a record is produced exactly when looking it up by
   * (Asesor, Semana - 1, Día) in the solution gives back its Turno.
   */
  lemma RowsRoundTrip(sol: Solution, r: Row)
    requires WellFormed(sol)
    ensures r in Rows(sol) <==> At(sol, r.asesor, r.semana - 1, r.dia) == Some(r.turno)
  {
    AdvisorRowsMembership(sol, |sol.keys|, r);
    assert sol.keys[..|sol.keys|] == sol.keys;
  }

  // ---- One record per stored cell ----

  /** Two records for the same (Asesor, Semana, Día). */
  predicate SameCell(r: Row, s: Row) {
    r.asesor == s.asesor && r.semana == s.semana && r.dia == s.dia
  }

  /** No two records share a cell. */
  predicate UniqueCells(rows: seq<Row>) {
    forall i, j :: 0 <= i < j < |rows| ==> !SameCell(rows[i], rows[j])
  }

  lemma UniqueCellsConcat(xs: seq<Row>, ys: seq<Row>)
    requires UniqueCells(xs) && UniqueCells(ys)
    requires forall r, s :: r in xs && s in ys ==> !SameCell(r, s)
    ensures UniqueCells(xs + ys)
  {
    var zs := xs + ys;
    forall i, j | 0 <= i < j < |zs| ensures !SameCell(zs[i], zs[j]) {
      if j < |xs| {
        assert zs[i] == xs[i] && zs[j] == xs[j];
      } else if i >= |xs| {
        assert zs[i] == ys[i - |xs|] && zs[j] == ys[j - |xs|];
      } else {
        assert zs[i] == xs[i] && zs[j] == ys[j - |xs|];
        assert xs[i] in xs && ys[j - |xs|] in ys;
      }
    }
  }

  lemma {:induction false} DayRowsUnique(adv: string, w: int, days: Dict<string, string>, n: nat)
    requires days.Valid() && n <= |days.keys|
    ensures UniqueCells(DayRows(adv, w, days, n))
  {
    if n > 0 {
      var prev := DayRows(adv, w, days, n - 1);
      var last := Row(adv, w + 1, days.keys[n - 1], days.entries[days.keys[n - 1]]);
      DayRowsUnique(adv, w, days, n - 1);
      forall r, s | r in prev && s in [last] ensures !SameCell(r, s) {
        DayRowsMembership(adv, w, days, n - 1, r);
        var i :| 0 <= i < n - 1 && days.keys[i] == r.dia;
      }
      UniqueCellsConcat(prev, [last]);
    }
  }

  lemma {:induction false} WeekRowsUnique(adv: string, weeks: Dict<int, Dict<string, string>>, n: nat)
    requires WeeksValid(weeks) && n <= |weeks.keys|
    ensures UniqueCells(WeekRows(adv, weeks, n))
  {
    if n > 0 {
      var w := weeks.keys[n - 1];
      var days := weeks.entries[w];
      var prev, last := WeekRows(adv, weeks, n - 1), DayRows(adv, w, days, |days.keys|);
      WeekRowsUnique(adv, weeks, n - 1);
      DayRowsUnique(adv, w, days, |days.keys|);
      forall r, s | r in prev && s in last ensures !SameCell(r, s) {
        WeekRowsMembership(adv, weeks, n - 1, r);
        DayRowsMembership(adv, w, days, |days.keys|, s);
        var i :| 0 <= i < n - 1 && weeks.keys[i] == r.semana - 1;
      }
      UniqueCellsConcat(prev, last);
    }
  }

  /** Every row of an advisor's week dict names that advisor. */
  lemma {:induction false} WeekRowsOwner(adv: string, weeks: Dict<int, Dict<string, string>>, n: nat, r: Row)
    requires WeeksValid(weeks) && n <= |weeks.keys|
    requires r in WeekRows(adv, weeks, n)
    ensures r.asesor == adv
  {
    var w := weeks.keys[n - 1];
    var days := weeks.entries[w];
    if r in WeekRows(adv, weeks, n - 1) {
      WeekRowsOwner(adv, weeks, n - 1, r);
    } else {
      DayRowsMembership(adv, w, days, |days.keys|, r);
    }
  }

  /** Every row of the first `n` advisors names one of them. */
  lemma {:induction false} AdvisorRowsOwner(sol: Solution, n: nat, r: Row)
    requires WellFormed(sol) && n <= |sol.keys|
    requires r in AdvisorRows(sol, n)
    ensures r.asesor in sol.keys[..n]
  {
    var adv := sol.keys[n - 1];
    PrefixStep(sol.keys, n, r.asesor);
    if r in AdvisorRows(sol, n - 1) {
      AdvisorRowsOwner(sol, n - 1, r);
    } else {
      WeekRowsOwner(adv, sol.entries[adv], |sol.entries[adv].keys|, r);
    }
  }

  lemma {:induction false} AdvisorRowsUnique(sol: Solution, n: nat)
    requires WellFormed(sol) && n <= |sol.keys|
    ensures UniqueCells(AdvisorRows(sol, n))
  {
    if n > 0 {
      var adv := sol.keys[n - 1];
      var weeks := sol.entries[adv];
      var prev, last := AdvisorRows(sol, n - 1), WeekRows(adv, weeks, |weeks.keys|);
      AdvisorRowsUnique(sol, n - 1);
      WeekRowsUnique(adv, weeks, |weeks.keys|);
      forall r, s | r in prev && s in last ensures !SameCell(r, s) {
        AdvisorRowsOwner(sol, n - 1, r);
        WeekRowsOwner(adv, weeks, |weeks.keys|, s);
      }
      UniqueCellsConcat(prev, last);
    }
  }

  /** Each stored (advisor, week, day) gives exactly one record: no two records share a cell. */
  lemma RowsUnique(sol: Solution)
    requires WellFormed(sol)
    ensures UniqueCells(Rows(sol))
  {
    AdvisorRowsUnique(sol, |sol.keys|);
  }

  // ---- Records of an extracted solution, in configured order ----

  /** The records of week `w` of `adv`, one per configured day, in the configured day order. */
  function OrderedDayRows(c: Config, a: map<Key, int>, adv: string, w: int): (rows: seq<Row>) {
    seq(|c.days|, j requires 0 <= j < |c.days| => Row(adv, w + 1, c.days[j], Label(a, Key(adv, w, c.days[j]))))
  }

  /** The records of `adv`, week 0 first. */
  function OrderedWeekRows(c: Config, a: map<Key, int>, adv: string): (rows: seq<Row>) {
    Flatten(OrderedWeeks(c, a, adv))
  }

  /** All records: advisors in configured order, then weeks in order, then days in configured order. */
  function OrderedRows(c: Config, a: map<Key, int>): (rows: seq<Row>) {
    Flatten(OrderedAdvisors(c, a))
  }

  /** A day dict that lists the configured days in order, each with its label, yields its records in that order. */
  lemma {:induction false} DayRowsInOrder(c: Config, a: map<Key, int>, adv: string, w: int,
                                          days: Dict<string, string>, m: nat)
    requires days.Valid() && |days.keys| == |c.days| && m <= |c.days|
    requires forall j :: 0 <= j < |c.days| ==> days.keys[j] == c.days[j]
    requires forall j :: 0 <= j < |c.days| ==> days.entries[c.days[j]] == Label(a, Key(adv, w, c.days[j]))
    ensures |DayRows(adv, w, days, m)| == m
    ensures forall j :: 0 <= j < m ==> DayRows(adv, w, days, m)[j] == OrderedDayRows(c, a, adv, w)[j]
  {
    if m > 0 {
      DayRowsInOrder(c, a, adv, w, days, m - 1);
      AppendAgrees(DayRows(adv, w, days, m - 1), OrderedDayRows(c, a, adv, w)[m - 1], OrderedDayRows(c, a, adv, w));
    }
  }

  /** The complete day dict of an extracted week yields its records in configured day order. */
  lemma ExtractedDayRows(c: Config, a: map<Key, int>, adv: string, w: int)
    requires DistinctDays(c)
    ensures var days := ExtractDays(c, a, adv, w, |c.days|);
            && days.Valid() && |days.keys| == |c.days|
            && DayRows(adv, w, days, |c.days|) == OrderedDayRows(c, a, adv, w)
  {
    var days := ExtractDays(c, a, adv, w, |c.days|);
    ExtractDaysValid(c, a, adv, w, |c.days|);
    ExtractDaysKeys(c, a, adv, w, |c.days|);
    forall j | 0 <= j < |c.days| ensures days.entries[c.days[j]] == Label(a, Key(adv, w, c.days[j])) {
      ExtractedDays(c, a, adv, w, c.days[j]);
    }
    DayRowsInOrder(c, a, adv, w, days, |c.days|);
  }

  /** Every dict under one extracted advisor keeps the dict invariant. */
  lemma ExtractedWeeksValid(c: Config, a: map<Key, int>, adv: string)
    ensures WeeksValid(ExtractWeeks(c, a, adv, c.weeks))
  {
    var weeks := ExtractWeeks(c, a, adv, c.weeks);
    ExtractWeeksValid(c, a, adv, c.weeks);
    ExtractWeeksKeys(c, a, adv, c.weeks);
    ExtractWeeksEntries(c, a, adv, c.weeks);
    forall w | w in weeks.entries ensures weeks.entries[w].Valid() {
      ExtractDaysValid(c, a, adv, w, |c.days|);
    }
  }

  /** The week sequence whose flattening is `OrderedWeekRows`. */
  function OrderedWeeks(c: Config, a: map<Key, int>, adv: string): (ws: seq<seq<Row>>) {
    seq(c.weeks, w => OrderedDayRows(c, a, adv, w))
  }

  /** A week dict with weeks 0, 1, ... in order, each yielding its ordered records, yields its records week by week. */
  lemma {:induction false} WeekRowsInOrder(c: Config, a: map<Key, int>, adv: string,
                                           weeks: Dict<int, Dict<string, string>>, m: nat)
    requires WeeksValid(weeks) && |weeks.keys| == c.weeks && m <= c.weeks
    requires forall w :: 0 <= w < c.weeks ==> weeks.keys[w] == w
    requires forall w :: 0 <= w < c.weeks ==>
               w in weeks.entries && DayRows(adv, w, weeks.entries[w], |weeks.entries[w].keys|) == OrderedDayRows(c, a, adv, w)
    ensures WeekRows(adv, weeks, m) == Flatten(OrderedWeeks(c, a, adv)[..m])
  {
    if m > 0 {
      WeekRowsInOrder(c, a, adv, weeks, m - 1);
      FlattenStep(OrderedWeeks(c, a, adv), m - 1);
      assert WeekRows(adv, weeks, m) == WeekRows(adv, weeks, m - 1) + OrderedDayRows(c, a, adv, m - 1);
    }
  }

  /** The week dict of an extracted advisor yields that advisor's records in order. */
  lemma ExtractedWeekRows(c: Config, a: map<Key, int>, adv: string)
    requires DistinctDays(c)
    ensures var weeks := ExtractWeeks(c, a, adv, c.weeks);
            && WeeksValid(weeks) && |weeks.keys| == c.weeks
            && WeekRows(adv, weeks, c.weeks) == OrderedWeekRows(c, a, adv)
  {
    var weeks := ExtractWeeks(c, a, adv, c.weeks);
    ExtractedWeeksValid(c, a, adv);
    ExtractWeeksKeys(c, a, adv, c.weeks);
    ExtractWeeksEntries(c, a, adv, c.weeks);
    forall w | 0 <= w < c.weeks
      ensures DayRows(adv, w, weeks.entries[w], |weeks.entries[w].keys|) == OrderedDayRows(c, a, adv, w)
    {
      ExtractedDayRows(c, a, adv, w);
    }
    WeekRowsInOrder(c, a, adv, weeks, c.weeks);
    assert OrderedWeeks(c, a, adv)[..c.weeks] == OrderedWeeks(c, a, adv);
  }

  /** The advisor sequence whose flattening is `OrderedRows`. */
  function OrderedAdvisors(c: Config, a: map<Key, int>): (advs: seq<seq<Row>>) {
    seq(|c.advisors|, i requires 0 <= i < |c.advisors| => OrderedWeekRows(c, a, c.advisors[i]))
  }

  /** A solution with the configured advisors in order, each yielding its ordered records, yields them advisor by advisor. */
  lemma {:induction false} AdvisorRowsInOrder(c: Config, a: map<Key, int>, sol: Solution, m: nat)
    requires WellFormed(sol) && |sol.keys| == |c.advisors| && m <= |c.advisors|
    requires forall i :: 0 <= i < |c.advisors| ==> sol.keys[i] == c.advisors[i]
    requires forall i :: 0 <= i < |c.advisors| ==>
               WeekRows(c.advisors[i], sol.entries[c.advisors[i]], |sol.entries[c.advisors[i]].keys|) == OrderedWeekRows(c, a, c.advisors[i])
    ensures AdvisorRows(sol, m) == Flatten(OrderedAdvisors(c, a)[..m])
  {
    if m > 0 {
      AdvisorRowsInOrder(c, a, sol, m - 1);
      FlattenStep(OrderedAdvisors(c, a), m - 1);
      assert AdvisorRows(sol, m) == AdvisorRows(sol, m - 1) + OrderedWeekRows(c, a, c.advisors[m - 1]);
    }
  }

  /** The records of one configured advisor of an extracted solution come out in order. */
  lemma ExtractedAdvisorRows(c: Config, a: map<Key, int>, adv: string)
    requires DistinctDays(c) && adv in c.advisors
    ensures var sol := Extracted(c, a);
            && adv in sol.entries && WeeksValid(sol.entries[adv])
            && WeekRows(adv, sol.entries[adv], |sol.entries[adv].keys|) == OrderedWeekRows(c, a, adv)
  {
    ExtractedAdvisors(c, a);
    ExtractedWeekRows(c, a, adv);
  }

  /** With distinct advisor names, an extracted solution holds the configured advisors in order, each with ordered records. */
  lemma ExtractedAdvisorsInOrder(c: Config, a: map<Key, int>)
    requires DistinctAdvisors(c) && DistinctDays(c)
    ensures var sol := Extracted(c, a);
            && WellFormed(sol) && |sol.keys| == |c.advisors|
            && (forall i :: 0 <= i < |c.advisors| ==> sol.keys[i] == c.advisors[i])
            && forall i :: 0 <= i < |c.advisors| ==>
                 WeekRows(c.advisors[i], sol.entries[c.advisors[i]], |sol.entries[c.advisors[i]].keys|) == OrderedWeekRows(c, a, c.advisors[i])
  {
    var sol := Extracted(c, a);
    ExtractedWellFormed(c, a);
    ExtractAdvisorsKeys(c, a, |c.advisors|);
    forall i | 0 <= i < |c.advisors|
      ensures WeekRows(c.advisors[i], sol.entries[c.advisors[i]], |sol.entries[c.advisors[i]].keys|) == OrderedWeekRows(c, a, c.advisors[i])
    {
      ExtractedAdvisorRows(c, a, c.advisors[i]);
    }
  }

  /**
   * With distinct advisor and day names, the records of an extracted solution
   * come out advisor by advisor in configured order, each advisor's weeks in
   * order, each week's days in configured order.
   */
  lemma RowsInConfiguredOrder(c: Config, a: map<Key, int>)
    requires DistinctAdvisors(c) && DistinctDays(c)
    ensures WellFormed(Extracted(c, a)) && Rows(Extracted(c, a)) == OrderedRows(c, a)
  {
    ExtractedAdvisorsInOrder(c, a);
    AdvisorRowsInOrder(c, a, Extracted(c, a), |c.advisors|);
    assert OrderedAdvisors(c, a)[..|c.advisors|] == OrderedAdvisors(c, a);
  }
}
