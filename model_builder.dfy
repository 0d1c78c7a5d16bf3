/**
 * The constraint model that `ShiftPlanner._make_model` builds
 * (planning_model.py:78-125), as functions of the configuration, and what
 * it means for an assignment of roles to satisfy it.
 *
 * Roles are coded 1 (Apertura), 2 (Cierre) and 3 (Intermedio).
 */
module ModelBuilder {
  import opened Wrappers
  import opened CpSat
  import opened PlannerConfig

  /** The key `(advisor, week_index, day_name)` of one variable. */
  datatype Key = Key(advisor: string, week: int, day: string)

  predicate IsVarKey(c: Config, k: Key) {
    k.advisor in c.advisors && 0 <= k.week < c.weeks && k.day in c.days
  }

  function KeySet(c: Config): (ks: set<Key>) {
    set adv, w, d | adv in c.advisors && 0 <= w < c.weeks && d in c.days :: Key(adv, w, d)
  }

  /** The variables of the model: one per advisor, week and day, each ranging over the three roles. */
  function Variables(c: Config): (vars: map<Key, IntVar>)
    ensures forall k :: k in vars <==> IsVarKey(c, k)
    ensures forall k :: k in vars ==> vars[k] == IntVar(1, 3)
  {
    var vars := map k | k in KeySet(c) :: IntVar(1, 3);
    assert forall k :: IsVarKey(c, k) ==> k in KeySet(c) by {
      forall k | IsVarKey(c, k) ensures k in KeySet(c) {
        assert k == Key(k.advisor, k.week, k.day);
      }
    }
    vars
  }

  /** The variables of one (week, day), in advisor order. */
  function DayKeys(advisors: seq<string>, w: int, day: string): (ks: seq<Key>)
    ensures forall k :: k in ks <==> k.advisor in advisors && k.week == w && k.day == day
  {
    var ks := seq(|advisors|, i requires 0 <= i < |advisors| => Key(advisors[i], w, day));
    assert forall k: Key :: k.advisor in advisors && k.week == w && k.day == day ==> k in ks by {
      forall k: Key | k.advisor in advisors && k.week == w && k.day == day ensures k in ks {
        var i :| 0 <= i < |advisors| && advisors[i] == k.advisor;
        assert ks[i] == k;
      }
    }
    ks
  }

  // ---- The four constraint families, in the order the builder adds them ----

  function CoverageOfWeek(c: Config, w: int): (cs: seq<Constraint<Key>>) {
    seq(|c.days|, j requires 0 <= j < |c.days| => AllDiff(DayKeys(c.advisors, w, c.days[j])))
  }

  function CoverageConstraints(c: Config): (cs: seq<Constraint<Key>>) {
    Flatten(seq(c.weeks, w requires 0 <= w < c.weeks => CoverageOfWeek(c, w)))
  }

  function ConsistencyOfAdvisor(c: Config, w: int, adv: string): (cs: seq<Constraint<Key>>)
    requires |c.days| >= 1
  {
    seq(|c.days| - 1, j requires 0 <= j < |c.days| - 1 => EqVar(Key(adv, w, c.days[j + 1]), Key(adv, w, c.days[0])))
  }

  function ConsistencyOfWeek(c: Config, w: int): (cs: seq<Constraint<Key>>)
    requires |c.days| >= 1
  {
    Flatten(seq(|c.advisors|, i requires 0 <= i < |c.advisors| => ConsistencyOfAdvisor(c, w, c.advisors[i])))
  }

  function ConsistencyConstraints(c: Config): (cs: seq<Constraint<Key>>)
    requires |c.days| >= 1
  {
    Flatten(seq(c.weeks, w requires 0 <= w < c.weeks => ConsistencyOfWeek(c, w)))
  }

  function PinOfWeek(c: Config, pinned: string, w: int): (cs: seq<Constraint<Key>>) {
    seq(|c.days|, j requires 0 <= j < |c.days| => EqConst(Key(pinned, w, c.days[j]), 1))
  }

  function PinConstraints(c: Config): (cs: seq<Constraint<Key>>)
    requires ValidConfig(c)
  {
    if c.enforceOpeningOnly then
      var pinned := c.openingOnlyAdvisor.value;
      Flatten(seq(c.weeks, w requires 0 <= w < c.weeks => PinOfWeek(c, pinned, w)))
    else []
  }

  /** The pinned advisor is left out of rotation, since its role never changes. */
  predicate ExemptFromRotation(c: Config, adv: string) {
    c.enforceOpeningOnly && c.openingOnlyAdvisor == Some(adv)
  }

  function RotationOfAdvisor(c: Config, adv: string): (cs: seq<Constraint<Key>>)
    requires |c.days| >= 1 && c.weeks >= 1
  {
    seq(c.weeks - 1, w requires 0 <= w < c.weeks - 1 => NeqVar(Key(adv, w, c.days[0]), Key(adv, w + 1, c.days[0])))
  }

  function RotationConstraints(c: Config): (cs: seq<Constraint<Key>>)
    requires ValidConfig(c)
  {
    if c.enableWeeklyRotation && c.weeks > 1 then
      Flatten(seq(|c.advisors|, i requires 0 <= i < |c.advisors| =>
        if ExemptFromRotation(c, c.advisors[i]) then [] else RotationOfAdvisor(c, c.advisors[i])))
    else []
  }

  /** Every constraint of the model, in the order the builder adds them. */
  function ModelConstraints(c: Config): (cs: seq<Constraint<Key>>)
    requires ValidConfig(c)
  {
    CoverageConstraints(c) + ConsistencyConstraints(c) + PinConstraints(c) + RotationConstraints(c)
  }

  // ---- The scheduling rules, stated directly on an assignment ----

  /** The role `a` gives to key `k`, or 0 (no role) when it gives none. */
  function RoleAt(a: map<Key, int>, k: Key): (role: int) {
    if k in a then a[k] else 0
  }

  ghost predicate InDomain(c: Config, a: map<Key, int>) {
    forall k :: IsVarKey(c, k) ==> k in a && 1 <= a[k] <= 3
  }

  /** The roles the advisors hold on day `d` of week `w`. */
  function RolesOn(c: Config, a: map<Key, int>, w: int, d: string): (roles: set<int>) {
    set adv | adv in c.advisors :: RoleAt(a, Key(adv, w, d))
  }

  /** Coverage: on every day all three roles are held. */
  predicate DailyCoverage(c: Config, a: map<Key, int>) {
    forall w, d :: 0 <= w < c.weeks && d in c.days ==> RolesOn(c, a, w, d) == {1, 2, 3}
  }

  /** Consistency: every advisor keeps the role of the week's first day all week. */
  ghost predicate WeeklyConsistency(c: Config, a: map<Key, int>)
    requires |c.days| >= 1
  {
    forall k :: IsVarKey(c, k) ==> RoleAt(a, k) == RoleAt(a, Key(k.advisor, k.week, c.days[0]))
  }

  /** Pinning: the opening-only advisor opens every day. */
  predicate OpeningPinned(c: Config, a: map<Key, int>)
    requires ValidConfig(c)
  {
    c.enforceOpeningOnly ==>
      forall w, d :: 0 <= w < c.weeks && d in c.days ==> RoleAt(a, Key(c.openingOnlyAdvisor.value, w, d)) == 1
  }

  /** Rotation: no advisor but the pinned one holds the same role in two consecutive weeks. */
  predicate WeeklyRotation(c: Config, a: map<Key, int>)
    requires ValidConfig(c)
  {
    c.enableWeeklyRotation && c.weeks > 1 ==>
      forall adv, w :: adv in c.advisors && !ExemptFromRotation(c, adv) && 0 <= w < c.weeks - 1 ==>
        RoleAt(a, Key(adv, w, c.days[0])) != RoleAt(a, Key(adv, w + 1, c.days[0]))
  }

  ghost predicate Rules(c: Config, a: map<Key, int>)
    requires ValidConfig(c)
  {
    InDomain(c, a) && DailyCoverage(c, a) && WeeklyConsistency(c, a) && OpeningPinned(c, a) && WeeklyRotation(c, a)
  }

  // ---- The model means exactly the rules ----

  /** The variables' ranges say exactly that every key has a role in 1..3. */
  lemma RangesMeaning(c: Config, a: map<Key, int>)
    ensures (forall k :: k in Variables(c) ==> k in a && Variables(c)[k].lo <= a[k] <= Variables(c)[k].hi)
            <==> InDomain(c, a)
  {
  }

  lemma ThreeRoles(x: int, y: int, z: int)
    requires 1 <= x <= 3 && 1 <= y <= 3 && 1 <= z <= 3
    ensures {x, y, z} == {1, 2, 3} <==> x != y && x != z && y != z
  {
    if {x, y, z} == {1, 2, 3} {
      assert 1 in {x, y, z} && 2 in {x, y, z} && 3 in {x, y, z};
    }
  }

  /** The roles held on a day are those of the three advisors' keys for that day. */
  lemma RolesOnDay(c: Config, a: map<Key, int>, w: int, d: string)
    requires |c.advisors| == 3
    ensures RolesOn(c, a, w, d) ==
            {RoleAt(a, Key(c.advisors[0], w, d)), RoleAt(a, Key(c.advisors[1], w, d)), RoleAt(a, Key(c.advisors[2], w, d))}
  {
    var roles := {RoleAt(a, Key(c.advisors[0], w, d)), RoleAt(a, Key(c.advisors[1], w, d)), RoleAt(a, Key(c.advisors[2], w, d))};
    forall x | x in RolesOn(c, a, w, d) ensures x in roles {
      var adv :| adv in c.advisors && x == RoleAt(a, Key(adv, w, d));
      var i :| 0 <= i < 3 && c.advisors[i] == adv;
    }
    forall i | 0 <= i < 3 ensures RoleAt(a, Key(c.advisors[i], w, d)) in RolesOn(c, a, w, d) {
      assert c.advisors[i] in c.advisors;
    }
  }

  /** Three advisors with pairwise different roles from 1..3 hold all three roles. */
  lemma AllDiffMeaning(c: Config, a: map<Key, int>, w: int, d: string)
    requires ValidConfig(c) && InDomain(c, a) && 0 <= w < c.weeks && d in c.days
    ensures Holds(a, AllDiff(DayKeys(c.advisors, w, d))) <==> RolesOn(c, a, w, d) == {1, 2, 3}
  {
    var ks := DayKeys(c.advisors, w, d);
    assert IsVarKey(c, ks[0]) && IsVarKey(c, ks[1]) && IsVarKey(c, ks[2]);
    var v0, v1, v2 := a[ks[0]], a[ks[1]], a[ks[2]];
    RolesOnDay(c, a, w, d);
    assert RolesOn(c, a, w, d) == {v0, v1, v2};
    ThreeRoles(v0, v1, v2);
    if v0 != v1 && v0 != v2 && v1 != v2 {
      forall i, j | 0 <= i < j < |ks| ensures a[ks[i]] != a[ks[j]] {
      }
    }
  }

  lemma CoverageMeaning(c: Config, a: map<Key, int>)
    requires ValidConfig(c) && InDomain(c, a)
    ensures AllHold(a, CoverageConstraints(c)) <==> DailyCoverage(c, a)
  {
    var weeks := seq(c.weeks, w requires 0 <= w < c.weeks => CoverageOfWeek(c, w));
    AllHoldFlatten(a, weeks);
    forall w, d | 0 <= w < c.weeks && d in c.days
      ensures AllHold(a, weeks[w]) ==> RolesOn(c, a, w, d) == {1, 2, 3}
    {
      var j :| 0 <= j < |c.days| && c.days[j] == d;
      AllDiffMeaning(c, a, w, d);
      assert weeks[w][j] == AllDiff(DayKeys(c.advisors, w, d));
    }
    if DailyCoverage(c, a) {
      forall w | 0 <= w < c.weeks ensures AllHold(a, weeks[w]) {
        forall j | 0 <= j < |c.days| ensures Holds(a, weeks[w][j]) {
          AllDiffMeaning(c, a, w, c.days[j]);
        }
      }
    }
  }

  lemma AdvisorConsistencyMeaning(c: Config, a: map<Key, int>, w: int, adv: string)
    requires ValidConfig(c) && InDomain(c, a) && 0 <= w < c.weeks && adv in c.advisors
    ensures AllHold(a, ConsistencyOfAdvisor(c, w, adv)) <==>
            forall d :: d in c.days ==> RoleAt(a, Key(adv, w, d)) == RoleAt(a, Key(adv, w, c.days[0]))
  {
    var cs := ConsistencyOfAdvisor(c, w, adv);
    assert IsVarKey(c, Key(adv, w, c.days[0]));
    if AllHold(a, cs) {
      forall d | d in c.days ensures RoleAt(a, Key(adv, w, d)) == RoleAt(a, Key(adv, w, c.days[0])) {
        var j :| 0 <= j < |c.days| && c.days[j] == d;
        if j > 0 {
          assert Holds(a, cs[j - 1]);
        }
      }
    }
    if forall d :: d in c.days ==> RoleAt(a, Key(adv, w, d)) == RoleAt(a, Key(adv, w, c.days[0])) {
      forall j | 0 <= j < |cs| ensures Holds(a, cs[j]) {
        assert IsVarKey(c, Key(adv, w, c.days[j + 1]));
      }
    }
  }

  lemma ConsistencyMeaning(c: Config, a: map<Key, int>)
    requires ValidConfig(c) && InDomain(c, a)
    ensures AllHold(a, ConsistencyConstraints(c)) <==> WeeklyConsistency(c, a)
  {
    var weeks := seq(c.weeks, w requires 0 <= w < c.weeks => ConsistencyOfWeek(c, w));
    AllHoldFlatten(a, weeks);
    forall w | 0 <= w < c.weeks
      ensures AllHold(a, weeks[w]) <==>
              forall i, d :: 0 <= i < |c.advisors| && d in c.days ==>
                RoleAt(a, Key(c.advisors[i], w, d)) == RoleAt(a, Key(c.advisors[i], w, c.days[0]))
    {
      var advs := seq(|c.advisors|, i requires 0 <= i < |c.advisors| => ConsistencyOfAdvisor(c, w, c.advisors[i]));
      assert weeks[w] == Flatten(advs);
      AllHoldFlatten(a, advs);
      forall i | 0 <= i < |c.advisors| {
        AdvisorConsistencyMeaning(c, a, w, c.advisors[i]);
      }
      if AllHold(a, weeks[w]) {
        forall i, d | 0 <= i < |c.advisors| && d in c.days
          ensures RoleAt(a, Key(c.advisors[i], w, d)) == RoleAt(a, Key(c.advisors[i], w, c.days[0]))
        {
          assert AllHold(a, advs[i]);
        }
      }
    }
    if AllHold(a, ConsistencyConstraints(c)) {
      forall k | IsVarKey(c, k) ensures RoleAt(a, k) == RoleAt(a, Key(k.advisor, k.week, c.days[0])) {
        var i :| 0 <= i < |c.advisors| && c.advisors[i] == k.advisor;
        assert AllHold(a, weeks[k.week]);
        assert k == Key(c.advisors[i], k.week, k.day);
      }
    }
    if WeeklyConsistency(c, a) {
      forall w, i, d | 0 <= w < c.weeks && 0 <= i < |c.advisors| && d in c.days
        ensures RoleAt(a, Key(c.advisors[i], w, d)) == RoleAt(a, Key(c.advisors[i], w, c.days[0]))
      {
        assert IsVarKey(c, Key(c.advisors[i], w, d));
      }
    }
  }

  lemma PinMeaning(c: Config, a: map<Key, int>)
    requires ValidConfig(c)
    ensures AllHold(a, PinConstraints(c)) <==> OpeningPinned(c, a)
  {
    if c.enforceOpeningOnly {
      var pinned := c.openingOnlyAdvisor.value;
      var weeks := seq(c.weeks, w requires 0 <= w < c.weeks => PinOfWeek(c, pinned, w));
      AllHoldFlatten(a, weeks);
      if AllHold(a, PinConstraints(c)) {
        forall w, d | 0 <= w < c.weeks && d in c.days ensures RoleAt(a, Key(pinned, w, d)) == 1 {
          var j :| 0 <= j < |c.days| && c.days[j] == d;
          assert Holds(a, weeks[w][j]);
        }
      }
      if OpeningPinned(c, a) {
        forall w | 0 <= w < c.weeks ensures AllHold(a, weeks[w]) {
          forall j | 0 <= j < |c.days| ensures Holds(a, weeks[w][j]) {
            assert RoleAt(a, Key(pinned, w, c.days[j])) == 1;
          }
        }
      }
    }
  }

  lemma AdvisorRotationMeaning(c: Config, a: map<Key, int>, adv: string)
    requires ValidConfig(c) && InDomain(c, a) && adv in c.advisors
    ensures AllHold(a, RotationOfAdvisor(c, adv)) <==>
            forall w :: 0 <= w < c.weeks - 1 ==> RoleAt(a, Key(adv, w, c.days[0])) != RoleAt(a, Key(adv, w + 1, c.days[0]))
  {
    var cs := RotationOfAdvisor(c, adv);
    if forall w :: 0 <= w < c.weeks - 1 ==> RoleAt(a, Key(adv, w, c.days[0])) != RoleAt(a, Key(adv, w + 1, c.days[0])) {
      forall w | 0 <= w < |cs| ensures Holds(a, cs[w]) {
        assert IsVarKey(c, Key(adv, w, c.days[0]));
        assert IsVarKey(c, Key(adv, w + 1, c.days[0]));
      }
    }
    if AllHold(a, cs) {
      forall w | 0 <= w < c.weeks - 1 ensures RoleAt(a, Key(adv, w, c.days[0])) != RoleAt(a, Key(adv, w + 1, c.days[0])) {
        assert Holds(a, cs[w]);
      }
    }
  }

  lemma RotationMeaning(c: Config, a: map<Key, int>)
    requires ValidConfig(c) && InDomain(c, a)
    ensures AllHold(a, RotationConstraints(c)) <==> WeeklyRotation(c, a)
  {
    if c.enableWeeklyRotation && c.weeks > 1 {
      var advs := seq(|c.advisors|, i requires 0 <= i < |c.advisors| =>
        if ExemptFromRotation(c, c.advisors[i]) then [] else RotationOfAdvisor(c, c.advisors[i]));
      AllHoldFlatten(a, advs);
      forall i | 0 <= i < |c.advisors| {
        AdvisorRotationMeaning(c, a, c.advisors[i]);
      }
      if AllHold(a, RotationConstraints(c)) {
        forall adv, w | adv in c.advisors && !ExemptFromRotation(c, adv) && 0 <= w < c.weeks - 1
          ensures RoleAt(a, Key(adv, w, c.days[0])) != RoleAt(a, Key(adv, w + 1, c.days[0]))
        {
          var i :| 0 <= i < |c.advisors| && c.advisors[i] == adv;
          assert AllHold(a, advs[i]);
        }
      }
    }
  }

  /**
   * An assignment satisfies the model the builder produces exactly when it
   * follows the scheduling rules: every key holds a role, every day all
   * three roles are held, every advisor keeps one role per week, the pinned
   * advisor always opens, and the others rotate between consecutive weeks.
   */
  lemma ModelMeaning(c: Config, a: map<Key, int>)
    requires ValidConfig(c)
    ensures Satisfies(a, Variables(c), ModelConstraints(c)) <==> Rules(c, a)
  {
    RangesMeaning(c, a);
    if InDomain(c, a) {
      AllHoldAppend(a, CoverageConstraints(c), ConsistencyConstraints(c));
      AllHoldAppend(a, CoverageConstraints(c) + ConsistencyConstraints(c), PinConstraints(c));
      AllHoldAppend(a, CoverageConstraints(c) + ConsistencyConstraints(c) + PinConstraints(c), RotationConstraints(c));
      CoverageMeaning(c, a);
      ConsistencyMeaning(c, a);
      PinMeaning(c, a);
      RotationMeaning(c, a);
    }
  }
}
