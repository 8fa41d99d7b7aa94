/** Shared vocabulary: optional values, duplicate-free sequences and counting bounds. */
module Common {

  datatype Option<+T> = None | Some(value: T)

  predicate Distinct<T(==)>(s: seq<T>) {
    forall i, j :: 0 <= i < j < |s| ==> s[i] != s[j]
  }

  function Elements<T>(s: seq<T>): set<T> {
    set x | x in s
  }

  /** A duplicate-free sequence has as many elements as positions. */
  lemma {:induction false} DistinctCardinality<T>(s: seq<T>)
    requires Distinct(s)
    ensures |Elements(s)| == |s|
  {
    if s == [] {
      assert Elements(s) == {};
    } else {
      var rest := s[..|s| - 1];
      DistinctCardinality(rest);
      assert s == rest + [s[|s| - 1]];
      assert Elements(s) == Elements(rest) + {s[|s| - 1]};
    }
  }

  function UpTo(m: nat): (s: set<nat>)
    ensures forall x: nat :: x in s <==> 1 <= x <= m
  {
    if m == 0 then {} else UpTo(m - 1) + {m}
  }

  lemma {:induction false} UpToCardinality(m: nat)
    ensures |UpTo(m)| == m
  {
    if m > 0 { UpToCardinality(m - 1); }
  }

  lemma {:induction false} SubsetCardinality<T>(a: set<T>, b: set<T>)
    requires a <= b
    ensures |a| <= |b|
  {
    if a != {} {
      var x :| x in a;
      SubsetCardinality(a - {x}, b - {x});
    }
  }

  /** Pigeonhole: `n` different positive numbers include one that is at least `n`. */
  lemma LargeElement(s: seq<nat>) returns (k: nat)
    requires Distinct(s) && s != []
    requires forall i :: 0 <= i < |s| ==> 1 <= s[i]
    ensures k < |s| && s[k] >= |s|
  {
    if forall i :: 0 <= i < |s| ==> s[i] < |s| {
      DistinctCardinality(s);
      UpToCardinality(|s| - 1);
      SubsetCardinality(Elements(s), UpTo(|s| - 1));
      assert false;
    } else {
      k :| k < |s| && s[k] >= |s|;
    }
  }

  /** Different owners of different unused numbers up to `m` leave room for the numbers in use. */
  lemma {:induction false} DistinctNumbers<T(!new)>(owners: set<T>, number: T -> nat, used: set<nat>, m: nat)
    requires forall x :: x in owners ==> 1 <= number(x) <= m && number(x) !in used
    requires forall x, y :: x in owners && y in owners && x != y ==> number(x) != number(y)
    requires used <= UpTo(m)
    ensures |owners| + |used| <= m
  {
    if owners == {} {
      UpToCardinality(m);
      SubsetCardinality(used, UpTo(m));
    } else {
      var x :| x in owners;
      DistinctNumbers(owners - {x}, number, used + {number(x)}, m);
    }
  }
}
