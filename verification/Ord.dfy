/** Building the shutdown graph: src/zinit/ord.rs. */
module Ord {
  import opened Basics

  type Name = string

  /** What `service_dependency_order` reads of the service table: each name with its `after` list. */
  type AfterTable = map<Name, seq<Name>>

  const DUMMY_ROOT: Name := ""

  datatype ProcessDAG = ProcessDAG(adj: map<Name, seq<Name>>, indegree: map<Name, nat>, count: nat)

  /** `indegree.get(name).unwrap_or(&0)` */
  function Count(m: map<Name, nat>, c: Name): nat {
    if c in m then m[c] else 0
  }

  /** `adj.get(&name).unwrap_or(&Vec::new())` */
  function Children(adj: map<Name, seq<Name>>, n: Name): seq<Name> {
    if n in adj then adj[n] else []
  }

  function Elems<T>(s: seq<T>): set<T> {
    set x | x in s
  }

  /** All edges out of the names in `dom`, as the multiset of their targets. */
  ghost function Pending(adj: map<Name, seq<Name>>, dom: set<Name>): multiset<Name>
    decreases dom
  {
    if dom == {} then multiset{} else
    var n :| n in dom;
    multiset(Children(adj, n)) + Pending(adj, dom - {n})
  }

  lemma {:induction false} PendingRemove(adj: map<Name, seq<Name>>, dom: set<Name>, n: Name)
    requires n in dom
    ensures Pending(adj, dom) == multiset(Children(adj, n)) + Pending(adj, dom - {n})
    decreases dom
  {
    var m :| m in dom && Pending(adj, dom) == multiset(Children(adj, m)) + Pending(adj, dom - {m});
    if m != n {
      PendingRemove(adj, dom - {m}, n);
      PendingRemove(adj, dom - {n}, m);
      assert dom - {m} - {n} == dom - {n} - {m};
    }
  }

  lemma {:induction false} PendingAgree(a: map<Name, seq<Name>>, b: map<Name, seq<Name>>, dom: set<Name>)
    requires forall n :: n in dom ==> Children(a, n) == Children(b, n)
    ensures Pending(a, dom) == Pending(b, dom)
    decreases dom
  {
    if dom == {} {
    } else {
      var n :| n in dom;
      PendingRemove(a, dom, n);
      PendingRemove(b, dom, n);
      PendingAgree(a, b, dom - {n});
    }
  }

  /** A target is pending exactly when some name of `dom` still lists it. */
  lemma {:induction false} PendingPositive(adj: map<Name, seq<Name>>, dom: set<Name>, c: Name)
    ensures Pending(adj, dom)[c] > 0 <==> exists p :: p in dom && c in Children(adj, p)
    decreases dom
  {
    if dom == {} {
    } else {
      var n :| n in dom;
      PendingRemove(adj, dom, n);
      PendingPositive(adj, dom - {n}, c);
      assert c in multiset(Children(adj, n)) <==> c in Children(adj, n);
      if p :| p in dom && c in Children(adj, p) {
        assert p == n || p in dom - {n};
      }
    }
  }

  ghost predicate Lists(t: AfterTable, p: Name, c: Name) {
    p in t && c in t[p]
  }

  ghost predicate Listed(t: AfterTable, c: Name) {
    exists p :: Lists(t, p, c)
  }

  function Nodes(t: AfterTable): set<Name> {
    t.Keys + {DUMMY_ROOT}
  }

  /** No service and no `after` entry carries the name kept for the dummy root. */
  ghost predicate WellNamed(t: AfterTable) {
    DUMMY_ROOT !in t && !Listed(t, DUMMY_ROOT)
  }

  /** What is built for any table: the `after` lists themselves, plus a root in front of exactly the
      services nobody lists, with every in-degree counting the entries (with repetitions) that list the
      name and the root's edge. A service with the root's own name loses its list to the root, but the
      entries of that list stay counted. */
  ghost predicate IsGraph(t: AfterTable, d: ProcessDAG) {
    && DUMMY_ROOT in d.adj
    && (forall n :: n in t && n != DUMMY_ROOT ==> Children(d.adj, n) == t[n])
    && d.adj.Keys <= Nodes(t)
    && NoDup(d.adj[DUMMY_ROOT])
    && (forall h :: h in d.adj[DUMMY_ROOT] <==> h in t && !Listed(t, h))
    && Tallies(d.indegree, Pending(t, t.Keys) + multiset(d.adj[DUMMY_ROOT]))
    && d.count == |t| + 1
  }

  /** The graph a table should give: every in-degree is the number of edges (with repetitions) that enter
      the name. */
  ghost predicate IsDag(t: AfterTable, d: ProcessDAG) {
    && DUMMY_ROOT in d.adj
    && (forall n :: n in t ==> Children(d.adj, n) == t[n])
    && d.adj.Keys <= Nodes(t)
    && NoDup(d.adj[DUMMY_ROOT])
    && (forall h :: h in d.adj[DUMMY_ROOT] <==> h in t && !Listed(t, h))
    && Tallies(d.indegree, Pending(d.adj, Nodes(t)))
    && d.count == |t| + 1
  }

  lemma PendingTable(t: AfterTable, c: Name)
    ensures Pending(t, t.Keys)[c] > 0 <==> Listed(t, c)
  {
    PendingPositive(t, t.Keys, c);
    if p :| p in t.Keys && c in Children(t, p) { assert Lists(t, p, c); }
    if p :| Lists(t, p, c) { assert c in Children(t, p); }
  }

  /** `m` counts the occurrences in `ms`, and has no entry at zero. */
  ghost predicate Tallies(m: map<Name, nat>, ms: multiset<Name>) {
    && (forall c :: Count(m, c) == ms[c])
    && (forall c :: c in m ==> m[c] > 0)
  }

  lemma TallyOneMore(m: map<Name, nat>, ms: multiset<Name>, c: Name)
    requires Tallies(m, ms)
    ensures Tallies(m[c := Count(m, c) + 1], ms + multiset{c})
  {
    forall x ensures Count(m[c := Count(m, c) + 1], x) == (ms + multiset{c})[x] {
      assert Count(m, x) == ms[x];
    }
  }

  /** The inner loop: the edges of one service. */
  method CollectRow(name: Name, after: seq<Name>, children0: map<Name, seq<Name>>, indegree0: map<Name, nat>,
      ghost ms: multiset<Name>)
      returns (children: map<Name, seq<Name>>, indegree: map<Name, nat>)
    requires name !in children0 && Tallies(indegree0, ms)
    ensures children == if after == [] then children0 else children0[name := after]
    ensures Tallies(indegree, ms + multiset(after))
  {
    children, indegree := children0, indegree0;
    for i := 0 to |after|
      invariant children == if i == 0 then children0 else children0[name := after[..i]]
      invariant Tallies(indegree, ms + multiset(after[..i]))
    {
      var child := after[i];
      assert after[..i + 1] == after[..i] + [child];
      TallyOneMore(indegree, ms + multiset(after[..i]), child);
      assert ms + multiset(after[..i + 1]) == ms + multiset(after[..i]) + multiset{child};
      children := children[name := Children(children, name) + [child]];
      indegree := indegree[child := Count(indegree, child) + 1];
    }
    assert after[..|after|] == after;
  }

  /** First pass: one edge and one in-degree unit for every entry of every `after` list. */
  method CollectEdges(t: AfterTable) returns (children: map<Name, seq<Name>>, indegree: map<Name, nat>)
    ensures children.Keys <= t.Keys && forall n :: n in t ==> Children(children, n) == t[n]
    ensures Tallies(indegree, Pending(t, t.Keys))
  {
    children, indegree := map[], map[];
    var todo := t.Keys;
    ghost var done := {};
    while todo != {}
      invariant todo + done == t.Keys && todo !! done
      invariant children.Keys <= done && forall n :: n in done ==> Children(children, n) == t[n]
      invariant Tallies(indegree, Pending(t, done))
    {
      var name :| name in todo;
      children, indegree := CollectRow(name, t[name], children, indegree, Pending(t, done));
      PendingRemove(t, done + {name}, name);
      assert done + {name} - {name} == done;
      todo := todo - {name};
      done := done + {name};
    }
  }

  /** Second pass: a root edge to every service whose in-degree is still zero. */
  method AddHeads(names: set<Name>, listed: map<Name, nat>, ghost ms: multiset<Name>)
      returns (heads: seq<Name>, indegree: map<Name, nat>)
    requires Tallies(listed, ms)
    ensures NoDup(heads)
    ensures forall h :: h in heads <==> h in names && ms[h] == 0
    ensures Tallies(indegree, ms + multiset(heads))
  {
    heads, indegree := [], listed;
    var todo := names;
    while todo != {}
      invariant todo <= names
      invariant NoDup(heads)
      invariant forall h :: h in heads <==> h in names && h !in todo && ms[h] == 0
      invariant Tallies(indegree, ms + multiset(heads))
    {
      var name :| name in todo;
      todo := todo - {name};
      assert multiset(heads)[name] == 0;
      if Count(indegree, name) == 0 {
        TallyOneMore(indegree, ms + multiset(heads), name);
        assert ms + multiset(heads + [name]) == ms + multiset(heads) + multiset{name};
        heads := heads + [name];
        indegree := indegree[name := Count(indegree, name) + 1];
      }
    }
  }

  lemma PendingWithRoot(t: AfterTable, adj: map<Name, seq<Name>>)
    requires DUMMY_ROOT !in t && forall n :: n in t ==> Children(adj, n) == t[n]
    ensures Pending(adj, Nodes(t)) == Pending(t, t.Keys) + multiset(Children(adj, DUMMY_ROOT))
  {
    PendingRemove(adj, Nodes(t), DUMMY_ROOT);
    assert Nodes(t) - {DUMMY_ROOT} == t.Keys;
    PendingAgree(adj, t, t.Keys);
  }

  lemma HeadsUnlisted(t: AfterTable, heads: seq<Name>)
    requires forall h :: h in heads <==> h in t && Pending(t, t.Keys)[h] == 0
    ensures forall h :: h in heads <==> h in t && !Listed(t, h)
  {
    forall h ensures h in heads <==> h in t && !Listed(t, h) { PendingTable(t, h); }
  }

  /** The graph is the one it should be if no service has the root's name. */
  lemma GraphIsDag(t: AfterTable, d: ProcessDAG)
    requires IsGraph(t, d) && DUMMY_ROOT !in t
    ensures IsDag(t, d)
  {
    hide NoDup, Listed, Tallies;
    PendingWithRoot(t, d.adj);
  }

  lemma Adjacent(t: AfterTable, children: map<Name, seq<Name>>, heads: seq<Name>)
    requires children.Keys <= t.Keys && forall n :: n in t ==> Children(children, n) == t[n]
    ensures var adj := children[DUMMY_ROOT := heads];
            adj.Keys <= Nodes(t) && forall n :: n in t && n != DUMMY_ROOT ==> Children(adj, n) == t[n]
  {
    forall n | n in t && n != DUMMY_ROOT ensures Children(children[DUMMY_ROOT := heads], n) == t[n] {
      assert Children(children, n) == t[n];
    }
  }

  lemma GraphFrom(t: AfterTable, children: map<Name, seq<Name>>, heads: seq<Name>, indegree: map<Name, nat>)
    requires children.Keys <= t.Keys && forall n :: n in t ==> Children(children, n) == t[n]
    requires NoDup(heads) && forall h :: h in heads <==> h in t && !Listed(t, h)
    requires Tallies(indegree, Pending(t, t.Keys) + multiset(heads))
    ensures IsGraph(t, ProcessDAG(children[DUMMY_ROOT := heads], indegree, |t| + 1))
  {
    Adjacent(t, children, heads);
    hide NoDup, Listed, Tallies, Pending, Children, Nodes;
  }

  method ServiceDependencyOrder(t: AfterTable) returns (dag: ProcessDAG)
    ensures IsGraph(t, dag)
    ensures DUMMY_ROOT !in t ==> IsDag(t, dag)
  {
    hide IsGraph, IsDag, Tallies, Pending, NoDup;
    var children, listed := CollectEdges(t);
    var heads, indegree := AddHeads(t.Keys, listed, Pending(t, t.Keys));
    dag := ProcessDAG(children[DUMMY_ROOT := heads], indegree, |t| + 1);
    HeadsUnlisted(t, heads);
    GraphFrom(t, children, heads, indegree);
    if DUMMY_ROOT !in t { GraphIsDag(t, dag); }
  }
}
