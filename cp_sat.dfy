/**
 * The part of a finite-domain constraint model that the planner uses:
 * integer variables with a range, four kinds of constraints, and what it
 * means for an assignment of values to satisfy them. The search engine
 * itself is not modelled here.
 */
module CpSat {

  /** A variable created with `NewIntVar(lo, hi, name)`; the display name is not modelled. */
  datatype IntVar = IntVar(lo: int, hi: int)

  /** `AddAllDifferent(xs)`, `Add(x == y)`, `Add(x == c)` and `Add(x != y)`, over variable keys. */
  datatype Constraint<K> =
    | AllDiff(xs: seq<K>)
    | EqVar(x: K, y: K)
    | EqConst(x: K, c: int)
    | NeqVar(x: K, y: K)

  /** Termination statuses of a solve. */
  datatype Status = Unknown | ModelInvalid | Feasible | Infeasible | Optimal

  /** Constraint `c` holds under assignment `a`; a variable without a value satisfies nothing. */
  predicate Holds<K(==)>(a: map<K, int>, c: Constraint<K>) {
    match c
    case AllDiff(xs) =>
      && (forall i :: 0 <= i < |xs| ==> xs[i] in a)
      && (forall i, j :: 0 <= i < j < |xs| ==> a[xs[i]] != a[xs[j]])
    case EqVar(x, y) => x in a && y in a && a[x] == a[y]
    case EqConst(x, v) => x in a && a[x] == v
    case NeqVar(x, y) => x in a && y in a && a[x] != a[y]
  }

  predicate AllHold<K(==)>(a: map<K, int>, cs: seq<Constraint<K>>) {
    forall i :: 0 <= i < |cs| ==> Holds(a, cs[i])
  }

  /** `a` gives every variable a value within its range and meets every constraint. */
  predicate Satisfies<K(==)>(a: map<K, int>, vars: map<K, IntVar>, cs: seq<Constraint<K>>) {
    && (forall k :: k in vars ==> k in a && vars[k].lo <= a[k] <= vars[k].hi)
    && AllHold(a, cs)
  }

  /** Concatenation of a sequence of sequences, peeled from the back so that it grows as loops append. */
  function Flatten<T>(ss: seq<seq<T>>): (flat: seq<T>) {
    if |ss| == 0 then [] else Flatten(ss[..|ss| - 1]) + ss[|ss| - 1]
  }

  lemma FlattenStep<T>(ss: seq<seq<T>>, i: nat)
    requires i < |ss|
    ensures Flatten(ss[..i + 1]) == Flatten(ss[..i]) + ss[i]
  {
    assert ss[..i + 1][..i] == ss[..i];
  }

  lemma AllHoldAppend<K>(a: map<K, int>, xs: seq<Constraint<K>>, ys: seq<Constraint<K>>)
    ensures AllHold(a, xs + ys) <==> AllHold(a, xs) && AllHold(a, ys)
  {
    if AllHold(a, xs) && AllHold(a, ys) {
      forall i | 0 <= i < |xs + ys| ensures Holds(a, (xs + ys)[i]) {
        if i >= |xs| { assert (xs + ys)[i] == ys[i - |xs|]; }
      }
    }
    if AllHold(a, xs + ys) {
      forall i | 0 <= i < |xs| ensures Holds(a, xs[i]) {
        assert (xs + ys)[i] == xs[i];
      }
      forall i | 0 <= i < |ys| ensures Holds(a, ys[i]) {
        assert (xs + ys)[|xs| + i] == ys[i];
      }
    }
  }

  /** The constraints of a concatenation all hold exactly when those of every part do. */
  lemma {:induction false} AllHoldFlatten<K>(a: map<K, int>, ss: seq<seq<Constraint<K>>>)
    ensures AllHold(a, Flatten(ss)) <==> forall i :: 0 <= i < |ss| ==> AllHold(a, ss[i])
  {
    if |ss| > 0 {
      var n := |ss| - 1;
      AllHoldFlatten(a, ss[..n]);
      AllHoldAppend(a, Flatten(ss[..n]), ss[n]);
      if AllHold(a, Flatten(ss)) {
        forall i | 0 <= i < |ss| ensures AllHold(a, ss[i]) {
          if i < n { assert ss[..n][i] == ss[i]; }
        }
      }
      if forall i :: 0 <= i < |ss| ==> AllHold(a, ss[i]) {
        forall i | 0 <= i < n ensures AllHold(a, ss[..n][i]) {
          assert ss[..n][i] == ss[i];
        }
      }
    }
  }
}
