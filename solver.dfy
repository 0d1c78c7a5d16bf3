/**
 * The search for an assignment that satisfies the planner's model, standing in
 * for the CP-SAT call `solver.Solve(model)` (planning_model.py:133-138). The
 * model's shape lets the search be a single candidate: a rotation of the three
 * roles by week, or, with an opening-only advisor, that advisor always opening
 * while the other two alternate. The candidate fails only when no assignment
 * satisfies the model at all.
 */
module Solver {
  import opened Wrappers
  import opened CpSat
  import opened PlannerConfig
  import opened ModelBuilder

  /** The position of the first occurrence of `x` in `s`. */
  function IndexOf(s: seq<string>, x: string): (i: nat)
    requires x in s
    ensures i < |s| && s[i] == x
    ensures forall j :: 0 <= j < i ==> s[j] != x
  {
    if s[0] == x then 0 else 1 + IndexOf(s[1..], x)
  }

  /** The candidate's role in week `w` for the advisor at position `i`. */
  function CandidateRole(c: Config, i: nat, w: int): (role: int)
    requires ValidConfig(c)
  {
    if c.enforceOpeningOnly then
      var p := IndexOf(c.advisors, c.openingOnlyAdvisor.value);
      if i == p then 1 else 2 + ((if i < p then i else i - 1) + w) % 2
    else
      1 + (i + w) % 3
  }

  function Candidate(c: Config): (a: map<Key, int>)
    requires ValidConfig(c)
    ensures InDomain(c, a)
  {
    map k | k in Variables(c) :: CandidateRole(c, IndexOf(c.advisors, k.advisor), k.week)
  }

  /** Among distinctly named advisors, each one's position is its index. */
  lemma IndexOfDistinct(c: Config, i: nat)
    requires ValidConfig(c) && DistinctAdvisors(c) && i < |c.advisors|
    ensures IndexOf(c.advisors, c.advisors[i]) == i
  {
  }

  lemma CandidateCoverage(c: Config, w: int)
    requires ValidConfig(c) && 0 <= w
    ensures {CandidateRole(c, 0, w), CandidateRole(c, 1, w), CandidateRole(c, 2, w)} == {1, 2, 3}
  {
    var x, y, z := CandidateRole(c, 0, w), CandidateRole(c, 1, w), CandidateRole(c, 2, w);
    assert 1 <= x <= 3 && 1 <= y <= 3 && 1 <= z <= 3;
    if c.enforceOpeningOnly {
      assert w % 2 != (1 + w) % 2;
    } else {
      assert w % 3 != (1 + w) % 3 && w % 3 != (2 + w) % 3 && (1 + w) % 3 != (2 + w) % 3;
    }
    ThreeRoles(x, y, z);
  }

  lemma CandidateCovers(c: Config)
    requires ValidConfig(c) && DistinctAdvisors(c)
    ensures DailyCoverage(c, Candidate(c))
  {
    var a := Candidate(c);
    forall w, d | 0 <= w < c.weeks && d in c.days ensures RolesOn(c, a, w, d) == {1, 2, 3} {
      RolesOnDay(c, a, w, d);
      assert IsVarKey(c, Key(c.advisors[0], w, d)) && IsVarKey(c, Key(c.advisors[1], w, d)) && IsVarKey(c, Key(c.advisors[2], w, d));
      IndexOfDistinct(c, 0);
      IndexOfDistinct(c, 1);
      IndexOfDistinct(c, 2);
      CandidateCoverage(c, w);
    }
  }

  lemma CandidateConsistent(c: Config)
    requires ValidConfig(c)
    ensures WeeklyConsistency(c, Candidate(c))
  {
    var a := Candidate(c);
    forall k | IsVarKey(c, k) ensures RoleAt(a, k) == RoleAt(a, Key(k.advisor, k.week, c.days[0])) {
      assert IsVarKey(c, Key(k.advisor, k.week, c.days[0]));
    }
  }

  lemma CandidatePinned(c: Config)
    requires ValidConfig(c)
    ensures OpeningPinned(c, Candidate(c))
  {
    if c.enforceOpeningOnly {
      forall w, d | 0 <= w < c.weeks && d in c.days ensures RoleAt(Candidate(c), Key(c.openingOnlyAdvisor.value, w, d)) == 1 {
        assert IsVarKey(c, Key(c.openingOnlyAdvisor.value, w, d));
      }
    }
  }

  /** A non-exempt advisor's candidate role changes from week `w` to week `w + 1`. */
  lemma CandidateRoleChanges(c: Config, i: nat, w: int)
    requires ValidConfig(c) && i < |c.advisors| && !ExemptFromRotation(c, c.advisors[i]) && 0 <= w
    ensures CandidateRole(c, i, w) != CandidateRole(c, i, w + 1)
  {
    if c.enforceOpeningOnly {
      var p := IndexOf(c.advisors, c.openingOnlyAdvisor.value);
      var o := if i < p then i else i - 1;
      assert (o + w) % 2 != (o + w + 1) % 2;
    } else {
      assert (i + w) % 3 != (i + w + 1) % 3;
    }
  }

  lemma CandidateRotates(c: Config)
    requires ValidConfig(c)
    ensures WeeklyRotation(c, Candidate(c))
  {
    var a := Candidate(c);
    if c.enableWeeklyRotation && c.weeks > 1 {
      forall adv, w | adv in c.advisors && !ExemptFromRotation(c, adv) && 0 <= w < c.weeks - 1
        ensures RoleAt(a, Key(adv, w, c.days[0])) != RoleAt(a, Key(adv, w + 1, c.days[0]))
      {
        assert IsVarKey(c, Key(adv, w, c.days[0])) && IsVarKey(c, Key(adv, w + 1, c.days[0]));
        CandidateRoleChanges(c, IndexOf(c.advisors, adv), w);
      }
    }
  }

  /** With distinct advisor names the candidate follows every rule. */
  lemma CandidateFollowsRules(c: Config)
    requires ValidConfig(c) && DistinctAdvisors(c)
    ensures Rules(c, Candidate(c))
  {
    CandidateCovers(c);
    CandidateConsistent(c);
    CandidatePinned(c);
    CandidateRotates(c);
  }

  /** A satisfying assignment gives every key a role and every day all three roles. */
  lemma SatisfiesCoverage(c: Config, a: map<Key, int>)
    requires ValidConfig(c) && Satisfies(a, Variables(c), ModelConstraints(c))
    ensures InDomain(c, a) && DailyCoverage(c, a)
  {
    ModelMeaning(c, a);
  }

  /** A satisfying assignment gives a day's three advisors three different roles, so their names differ. */
  lemma SatisfiableMeansDistinct(c: Config, a: map<Key, int>)
    requires ValidConfig(c) && Satisfies(a, Variables(c), ModelConstraints(c))
    ensures DistinctAdvisors(c)
  {
    SatisfiesCoverage(c, a);
    var d := c.days[0];
    assert RolesOn(c, a, 0, d) == {1, 2, 3};
    RolesOnDay(c, a, 0, d);
    var k0, k1, k2 := Key(c.advisors[0], 0, d), Key(c.advisors[1], 0, d), Key(c.advisors[2], 0, d);
    assert IsVarKey(c, k0) && IsVarKey(c, k1) && IsVarKey(c, k2);
    ThreeRoles(RoleAt(a, k0), RoleAt(a, k1), RoleAt(a, k2));
  }

  /**
   * The model is satisfiable exactly when the advisors' names are distinct;
   * then the candidate is a solution.
   */
  lemma Feasibility(c: Config)
    requires ValidConfig(c)
    ensures DistinctAdvisors(c) ==> Satisfies(Candidate(c), Variables(c), ModelConstraints(c))
    ensures !DistinctAdvisors(c) ==> forall a :: !Satisfies(a, Variables(c), ModelConstraints(c))
  {
    if DistinctAdvisors(c) {
      CandidateFollowsRules(c);
      ModelMeaning(c, Candidate(c));
    } else {
      forall a ensures !Satisfies(a, Variables(c), ModelConstraints(c)) {
        if Satisfies(a, Variables(c), ModelConstraints(c)) {
          SatisfiableMeansDistinct(c, a);
        }
      }
    }
  }

  /**
   * `solver.Solve(model)` followed by `solver.Value(...)`: reports Feasible with
   * an assignment that satisfies the model, or Infeasible when none exists.
   */
  method Solve(c: Config, vars: map<Key, IntVar>, cs: seq<Constraint<Key>>) returns (status: Status, values: map<Key, int>)
    requires ValidConfig(c) && vars == Variables(c) && cs == ModelConstraints(c)
    ensures status == Feasible || status == Infeasible
    ensures status == Feasible ==> Satisfies(values, vars, cs)
    ensures status == Infeasible ==> forall a :: !Satisfies(a, vars, cs)
  {
    var candidate := Candidate(c);
    Feasibility(c);
    if Satisfies(candidate, vars, cs) {
      status, values := Feasible, candidate;
    } else {
      status, values := Infeasible, map[];
    }
  }

  /**
   * A planner built with the default advisors, whatever its days, weeks,
   * pinning and rotation, has a satisfiable model: solving it succeeds.
   */
  lemma DefaultAdvisorsSolvable(days: Option<seq<string>>, weeks: int, enforceOpeningOnly: bool,
                                openingOnlyAdvisor: Option<string>, enableWeeklyRotation: bool)
    requires CheckConfig(None, days, weeks, enforceOpeningOnly, openingOnlyAdvisor, enableWeeklyRotation).Success?
    ensures var c := CheckConfig(None, days, weeks, enforceOpeningOnly, openingOnlyAdvisor, enableWeeklyRotation).value;
            DistinctAdvisors(c) && Satisfies(Candidate(c), Variables(c), ModelConstraints(c))
  {
    var c := CheckConfig(None, days, weeks, enforceOpeningOnly, openingOnlyAdvisor, enableWeeklyRotation).value;
    assert c.advisors == DefaultAdvisors;
    assert DefaultAdvisors[0] != DefaultAdvisors[1] && DefaultAdvisors[0] != DefaultAdvisors[2] && DefaultAdvisors[1] != DefaultAdvisors[2];
    Feasibility(c);
  }
}
