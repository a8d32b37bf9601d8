/** Chains through `after` lists, and finite counting over them. */
module Paths {
  import opened Basics
  import opened Ord

  ghost predicate IsPath(t: AfterTable, path: seq<Name>) {
    path != [] && forall i :: 0 <= i < |path| - 1 ==> Lists(t, path[i], path[i + 1])
  }

  /** Some chain into `c` passes twice through the same name: `c` is on a cycle or after one. */
  ghost predicate BehindCycle(t: AfterTable, c: Name) {
    exists path :: IsPath(t, path) && path[|path| - 1] == c && !NoDup(path)
  }

  ghost predicate Acyclic(t: AfterTable) {
    forall path :: IsPath(t, path) ==> NoDup(path)
  }

  /** Every entry of every `after` list names a service of the table. */
  ghost predicate AllDefined(t: AfterTable) {
    forall c :: Listed(t, c) ==> c in t
  }

  ghost predicate Leads(t: AfterTable, a: Name, b: Name) {
    exists path :: IsPath(t, path) && path[0] == a && path[|path| - 1] == b
  }

  lemma PathExtend(t: AfterTable, path: seq<Name>, c: Name)
    requires IsPath(t, path) && Lists(t, path[|path| - 1], c)
    ensures IsPath(t, path + [c])
  {
    var q := path + [c];
    forall i | 0 <= i < |q| - 1 ensures Lists(t, q[i], q[i + 1]) {
      if i == |path| - 1 { assert q[i + 1] == c; } else { assert q[i + 1] == path[i + 1]; }
    }
  }

  lemma PathPrepend(t: AfterTable, path: seq<Name>, p: Name)
    requires IsPath(t, path) && Lists(t, p, path[0])
    ensures IsPath(t, [p] + path)
  {
    var q := [p] + path;
    forall i | 0 <= i < |q| - 1 ensures Lists(t, q[i], q[i + 1]) {
      if i > 0 { assert Lists(t, path[i - 1], path[i]); }
    }
  }

  lemma {:induction false} DistinctCount(s: seq<Name>)
    requires NoDup(s)
    ensures |Elems(s)| == |s|
  {
    if s == [] {
    } else {
      var init := s[..|s| - 1];
      DistinctCount(init);
      assert s == init + [s[|s| - 1]];
      assert Elems(s) == Elems(init) + {s[|s| - 1]};
    }
  }

  lemma {:induction false} SubsetCount(a: set<Name>, b: set<Name>)
    requires a <= b
    ensures |a| <= |b|
    ensures |a| == |b| ==> a == b
  {
    assert b == a + (b - a);
  }

  /** More names than the set they come from: one of them repeats. */
  lemma PigeonHole(s: seq<Name>, dom: set<Name>)
    requires Elems(s) <= dom && |s| > |dom|
    ensures !NoDup(s)
  {
    if NoDup(s) {
      DistinctCount(s);
      SubsetCount(Elems(s), dom);
    }
  }
}
