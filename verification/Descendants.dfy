/** `collect_descendants`: recursion over a snapshot of the process table. */
module Descendants {
  import opened Basics

  type Pid = nat

  type Procs = map<Pid, Option<Pid>> // each process with its parent

  /** The ancestor of `q` at distance `k`. */
  function Anc(procs: Procs, q: Pid, k: nat): Option<Pid>
    decreases k
  {
    if k == 0 then Some(q) else
    if q in procs && procs[q].Some? then Anc(procs, procs[q].value, k - 1) else None
  }

  ghost predicate Descends(procs: Procs, a: Pid, q: Pid) {
    exists k :: k > 0 && Anc(procs, q, k) == Some(a)
  }

  ghost predicate Acyclic(procs: Procs) {
    forall q :: q in procs ==> !Descends(procs, q, q)
  }

  ghost function Below(procs: Procs, a: Pid): set<Pid> {
    set q | q in procs && Descends(procs, a, q)
  }

  lemma {:induction false} AncPlus(procs: Procs, q: Pid, j: nat, k: nat)
    requires Anc(procs, q, j).Some?
    ensures Anc(procs, q, j + k) == Anc(procs, Anc(procs, q, j).value, k)
    decreases j
  {
    if j > 0 { AncPlus(procs, procs[q].value, j - 1, k); }
  }

  lemma DescendsTrans(procs: Procs, a: Pid, b: Pid, c: Pid)
    requires Descends(procs, a, b) && Descends(procs, b, c)
    ensures Descends(procs, a, c)
  {
    var j :| j > 0 && Anc(procs, b, j) == Some(a);
    var k :| k > 0 && Anc(procs, c, k) == Some(b);
    AncPlus(procs, c, k, j);
  }

  /** The part of the tree that hangs under the child `c`, with `c` itself. */
  ghost function Branch(procs: Procs, c: Pid): set<Pid> {
    {c} + Below(procs, c)
  }

  predicate IsChild(procs: Procs, a: Pid, c: Pid) {
    c in procs && procs[c] == Some(a)
  }

  lemma ChildBelow(procs: Procs, a: Pid, c: Pid)
    requires Acyclic(procs) && IsChild(procs, a, c)
    ensures Descends(procs, a, c) && Branch(procs, c) <= Below(procs, a) && c !in Below(procs, c)
  {
    assert Anc(procs, c, 1) == Anc(procs, a, 0);
    forall q | q in Below(procs, c) ensures q in Below(procs, a) { DescendsTrans(procs, a, c, q); }
  }

  /** Every proper descendant hangs under one child. */
  lemma {:induction false} BelowHasChild(procs: Procs, a: Pid, q: Pid, k: nat) returns (c: Pid)
    requires q in procs && k > 0 && Anc(procs, q, k) == Some(a)
    ensures IsChild(procs, a, c) && q in Branch(procs, c)
    decreases k
  {
    if k == 1 {
      c := q;
    } else {
      var p := procs[q].value;
      c := BelowHasChild(procs, a, p, k - 1);
      assert Anc(procs, q, 1) == Anc(procs, p, 0);
      assert Descends(procs, p, q);
      if p != c { DescendsTrans(procs, c, p, q); }
    }
  }

  /** ... and under no other. */
  lemma BranchesDisjoint(procs: Procs, a: Pid, c: Pid, d: Pid, q: Pid)
    requires Acyclic(procs) && IsChild(procs, a, c) && IsChild(procs, a, d) && q in Branch(procs, c)
        && q in Branch(procs, d)
    ensures c == d
  {
    var j :| Anc(procs, q, j) == Some(c) by { assert q == c ==> Anc(procs, q, 0) == Some(c); }
    var k :| Anc(procs, q, k) == Some(d) by { assert q == d ==> Anc(procs, q, 0) == Some(d); }
    if c != d {
      if j < k { Above(procs, a, c, d, q, j, k); } else { assert j != k; Above(procs, a, d, c, q, k, j); }
    }
  }

  lemma Above(procs: Procs, a: Pid, c: Pid, d: Pid, q: Pid, j: nat, k: nat)
    requires IsChild(procs, a, c) && IsChild(procs, a, d)
    requires j < k && Anc(procs, q, j) == Some(c) && Anc(procs, q, k) == Some(d)
    ensures !Acyclic(procs)
  {
    AncPlus(procs, q, j, k - j);
    assert Anc(procs, c, k - j) == Anc(procs, a, k - j - 1);
    assert Anc(procs, d, 1) == Anc(procs, a, 0);
    AncPlus(procs, d, 1, k - j - 1);
    assert Anc(procs, d, k - j) == Some(d);
    assert Descends(procs, d, d);
  }

  /** Every process listed has its parent before it, or `a` for a parent. */
  ghost predicate ParentsFirst(procs: Procs, a: Pid, s: seq<Pid>) {
    forall j :: 0 <= j < |s| ==>
      s[j] in procs && procs[s[j]].Some? && (procs[s[j]].value == a || procs[s[j]].value in s[..j])
  }

  /** `found` is a listing of the branches of the children in `seen`, parents before their children. */
  ghost predicate Lists(procs: Procs, a: Pid, seen: set<Pid>, found: seq<Pid>) {
    && NoDup(found)
    && (forall q :: q in found <==> exists c :: c in seen && IsChild(procs, a, c) && q in Branch(procs, c))
    && ParentsFirst(procs, a, found)
  }

  lemma ListsBranch(procs: Procs, a: Pid, seen: set<Pid>, found: seq<Pid>, c: Pid, below: seq<Pid>)
    requires Acyclic(procs) && Lists(procs, a, seen, found) && c !in seen && IsChild(procs, a, c)
    requires NoDup(below) && ParentsFirst(procs, c, below) && (forall q :: q in below <==> q in Below(procs, c))
    ensures Lists(procs, a, seen + {c}, found + [c] + below)
  {
    var all := found + [c] + below;
    ChildBelow(procs, a, c);
    forall q | q in Branch(procs, c) ensures q !in found {
      if q in found {
        var d :| d in seen && IsChild(procs, a, d) && q in Branch(procs, d);
        BranchesDisjoint(procs, a, c, d, q);
      }
    }
    assert NoDup(all) by { Apart(found, c, below); }
    forall q ensures q in all <==> exists d :: d in seen + {c} && IsChild(procs, a, d) && q in Branch(procs, d) {
      if q in all {
        if q in found {
          var d :| d in seen && IsChild(procs, a, d) && q in Branch(procs, d);
        } else {
          assert q in Branch(procs, c);
        }
      }
      if d :| d in seen + {c} && IsChild(procs, a, d) && q in Branch(procs, d) {
        if d == c { assert q == c || q in below; } else { assert q in found; }
      }
    }
    forall j | 0 <= j < |all|
      ensures all[j] in procs && procs[all[j]].Some? && (procs[all[j]].value == a || procs[all[j]].value in all[..j])
    {
      if j < |found| {
        assert all[..j] == found[..j];
      } else if j > |found| {
        var k := j - |found| - 1;
        assert all[..j] == found + [c] + below[..k];
      }
    }
  }

  lemma Apart(found: seq<Pid>, c: Pid, below: seq<Pid>)
    requires NoDup(found) && NoDup(below) && c !in below && c !in found && forall q :: q in below ==> q !in found
    ensures NoDup(found + [c] + below)
  {
    var all := found + [c] + below;
    forall i, j | 0 <= i < j < |all| ensures all[i] != all[j] {
      if j > |found| { assert all[j] in below; }
    }
  }

  /** On an acyclic snapshot the recursion ends and appends every proper descendant of `pid` exactly
      once, and nothing else, parents before their children. */
  method CollectDescendants(pid: Pid, procs: Procs, out0: seq<Pid>) returns (out: seq<Pid>)
    requires Acyclic(procs)
    ensures out0 <= out
    ensures NoDup(out[|out0|..]) && ParentsFirst(procs, pid, out[|out0|..])
    ensures forall q :: q in out[|out0|..] <==> q in Below(procs, pid)
    decreases Below(procs, pid)
  {
    out := out0;
    var todo := procs.Keys;
    ghost var found: seq<Pid> := [];
    while todo != {}
      invariant todo <= procs.Keys
      invariant out == out0 + found && Lists(procs, pid, procs.Keys - todo, found)
    {
      var child :| child in todo;
      ghost var seen := procs.Keys - todo;
      todo := todo - {child};
      assert procs.Keys - todo == seen + {child};
      if procs[child] == Some(pid) {
        ChildBelow(procs, pid, child);
        assert child in Below(procs, pid);
        out := out + [child];
        var out1 := out;
        out := CollectDescendants(child, procs, out);
        ListsBranch(procs, pid, seen, found, child, out[|out1|..]);
        found := found + [child] + out[|out1|..];
      } else {
        ListsSkip(procs, pid, seen, found, child);
      }
    }
    assert out[|out0|..] == found;
    forall q ensures q in found <==> q in Below(procs, pid) { AllListed(procs, pid, found, q); }
  }

  lemma ListsSkip(procs: Procs, a: Pid, seen: set<Pid>, found: seq<Pid>, c: Pid)
    requires Lists(procs, a, seen, found) && !IsChild(procs, a, c)
    ensures Lists(procs, a, seen + {c}, found)
  {
  }

  lemma AllListed(procs: Procs, a: Pid, found: seq<Pid>, q: Pid)
    requires Acyclic(procs) && Lists(procs, a, procs.Keys, found)
    ensures q in found <==> q in Below(procs, a)
  {
    if q in found {
      var c :| c in procs.Keys && IsChild(procs, a, c) && q in Branch(procs, c);
      ChildBelow(procs, a, c);
    }
    if q in Below(procs, a) {
      var k :| k > 0 && Anc(procs, q, k) == Some(a);
      var c := BelowHasChild(procs, a, q, k);
    }
  }
}
