/** Why no `after` entry and no service may carry the dummy root's name. */
module ShutdownRoot {
  import opened Basics
  import opened Ord
  import opened Shutdown

  /** `a` lists the root's name and `b`; `b` lists nothing. */
  function Table(a: Name, b: Name): AfterTable {
    map[a := [DUMMY_ROOT, b], b := []]
  }

  function Dag(a: Name, b: Name): ProcessDAG {
    ProcessDAG(map[a := [DUMMY_ROOT, b], DUMMY_ROOT := [a]], map[DUMMY_ROOT := 1, b := 1, a := 1], 3)
  }

  lemma Edges(a: Name, b: Name)
    requires a != b && a != DUMMY_ROOT && b != DUMMY_ROOT
    ensures Pending(Table(a, b), {a, b}) == multiset{DUMMY_ROOT, b}
  {
    PendingRemove(Table(a, b), {a, b}, a);
    PendingRemove(Table(a, b), {b}, b);
    assert {a, b} - {a} == {b} && {b} - {b} == {};
  }

  lemma Heads(a: Name, b: Name, h: Name)
    requires a != b && a != DUMMY_ROOT && b != DUMMY_ROOT
    ensures h in [a] <==> h in Table(a, b) && !Listed(Table(a, b), h)
  {
    assert Lists(Table(a, b), a, b) by { assert [DUMMY_ROOT, b][1] == b; }
  }

  lemma DagIsDag(a: Name, b: Name)
    requires a != b && a != DUMMY_ROOT && b != DUMMY_ROOT
    ensures IsDag(Table(a, b), Dag(a, b))
  {
    var t, children := Table(a, b), map[a := [DUMMY_ROOT, b]];
    Edges(a, b);
    Sizes(a, b);
    assert Tallies(Dag(a, b).indegree, multiset{DUMMY_ROOT, b} + multiset([a]));
    assert children.Keys <= t.Keys && forall n :: n in t ==> Children(children, n) == t[n];
    hide Pending, Tallies, Listed, IsGraph, IsDag;
    forall h ensures h in [a] <==> h in t && !Listed(t, h) { Heads(a, b, h); }
    GraphFrom(t, children, [a], Dag(a, b).indegree);
    assert children[DUMMY_ROOT := [a]] == Dag(a, b).adj;
    GraphIsDag(t, Dag(a, b));
  }

  lemma Sizes(a: Name, b: Name)
    requires a != b
    ensures Table(a, b).Keys == {a, b} && |Table(a, b)| == 2
  {
    assert |Table(a, b).Keys| == 2;
  }

  lemma Take(d: ProcessDAG, active: set<Name>, ls: seq<Label>, s: Loop, l: Label) returns (ls': seq<Label>, s': Loop)
    requires Exec(d, active, ls) == Some(s) && Enabled(d, s, l)
    ensures Exec(d, active, ls') == Some(s') && s' == Apply(d, s, l)
  {
    assert (ls + [l])[..|ls|] == ls;
    ls', s' := ls + [l], Apply(d, s, l);
  }

  lemma RootOut(a: Name, b: Name) returns (ls: seq<Label>, s: Loop)
    requires a != b && a != DUMMY_ROOT && b != DUMMY_ROOT
    ensures Exec(Dag(a, b), {b}, ls) == Some(s)
    ensures s == Loop(map[DUMMY_ROOT := 1, b := 1, a := 0], {b}, [a], {}, Waiting, [DUMMY_ROOT], [], 2)
  {
    var d := Dag(a, b);
    ls, s := [], Init(d, {b});
    ls, s := Take(d, {b}, ls, s, Recv);
    ls, s := Take(d, {b}, ls, s, Edge);
    ls, s := Take(d, {b}, ls, s, EndOfName);
  }

  lemma RootAgain(a: Name, b: Name) returns (ls: seq<Label>, s: Loop)
    requires a != b && a != DUMMY_ROOT && b != DUMMY_ROOT
    ensures Exec(Dag(a, b), {b}, ls) == Some(s)
    ensures s == Loop(map[DUMMY_ROOT := 0, b := 1, a := 0], {b}, [DUMMY_ROOT], {}, At(a, 1), [DUMMY_ROOT, a], [], 2)
  {
    ls, s := RootOut(a, b);
    ls, s := Take(Dag(a, b), {b}, ls, s, Recv);
    ls, s := Take(Dag(a, b), {b}, ls, s, Edge);
  }

  lemma ListerOut(a: Name, b: Name) returns (ls: seq<Label>, s: Loop)
    requires a != b && a != DUMMY_ROOT && b != DUMMY_ROOT
    ensures Exec(Dag(a, b), {b}, ls) == Some(s)
    ensures s == Loop(map[DUMMY_ROOT := 0, b := 0, a := 0], {}, [DUMMY_ROOT], {b}, Waiting, [DUMMY_ROOT, a], [b], 1)
  {
    ls, s := RootAgain(a, b);
    ls, s := Take(Dag(a, b), {b}, ls, s, Edge);
    ls, s := Take(Dag(a, b), {b}, ls, s, EndOfName);
  }

  /** The root is released a second time: it comes out twice, the in-degree of `a` is decremented from 0
      and wraps, and the loop exits without having received `b`. */
  lemma RootListed(a: Name, b: Name) returns (ls: seq<Label>)
    requires a != b && a != DUMMY_ROOT && b != DUMMY_ROOT
    ensures IsDag(Table(a, b), Dag(a, b)) && Exec(Dag(a, b), {b}, ls).Some?
    ensures var s := Exec(Dag(a, b), {b}, ls).value;
            s.cur.Exited? && s.received == [DUMMY_ROOT, a, DUMMY_ROOT] && Count(s.indegree, a) == 0xffff_ffff
  {
    DagIsDag(a, b);
    var d, s := Dag(a, b), Init(Dag(a, b), {b});
    ls, s := ListerOut(a, b);
    ls, s := Take(d, {b}, ls, s, Recv);
    ls, s := Take(d, {b}, ls, s, Edge);
    ls, s := Take(d, {b}, ls, s, EndOfName);
  }

  // ---------------------------------------------------------------- a service with the root's name

  /** A service with the root's name lists `b`, which lists nothing. */
  function RootTable(b: Name): AfterTable {
    map[DUMMY_ROOT := [b], b := []]
  }

  function RootGraph(b: Name): ProcessDAG {
    ProcessDAG(map[DUMMY_ROOT := [DUMMY_ROOT]], map[b := 1, DUMMY_ROOT := 1], 3)
  }

  lemma RootEdges(b: Name)
    requires b != DUMMY_ROOT
    ensures Pending(RootTable(b), {DUMMY_ROOT, b}) == multiset{b}
  {
    PendingRemove(RootTable(b), {DUMMY_ROOT, b}, DUMMY_ROOT);
    PendingRemove(RootTable(b), {b}, b);
    assert {DUMMY_ROOT, b} - {DUMMY_ROOT} == {b} && {b} - {b} == {};
  }

  lemma RootGraphIsGraph(b: Name)
    requires b != DUMMY_ROOT
    ensures IsGraph(RootTable(b), RootGraph(b))
  {
    var t, children := RootTable(b), map[DUMMY_ROOT := [b]];
    RootEdges(b);
    assert t.Keys == {DUMMY_ROOT, b} && |t.Keys| == 2 && |t| == 2;
    assert Tallies(RootGraph(b).indegree, multiset{b} + multiset([DUMMY_ROOT]));
    assert children.Keys <= t.Keys && forall n :: n in t ==> Children(children, n) == t[n];
    assert Lists(t, DUMMY_ROOT, b);
    hide Pending, Tallies, IsGraph;
    GraphFrom(t, children, [DUMMY_ROOT], RootGraph(b).indegree);
    assert children[DUMMY_ROOT := [DUMMY_ROOT]] == RootGraph(b).adj;
  }

  lemma RootOnce(b: Name) returns (ls: seq<Label>, s: Loop)
    requires b != DUMMY_ROOT
    ensures Exec(RootGraph(b), {b}, ls) == Some(s)
    ensures s == Loop(map[b := 1, DUMMY_ROOT := 0], {b}, [DUMMY_ROOT], {}, Waiting, [DUMMY_ROOT], [], 2)
  {
    var d := RootGraph(b);
    s := Init(d, {b});
    ls, s := Take(d, {b}, [], s, Recv);
    ls, s := Take(d, {b}, ls, s, Edge);
    assert s == Loop(map[b := 1, DUMMY_ROOT := 0], {b}, [DUMMY_ROOT], {}, At(DUMMY_ROOT, 1), [DUMMY_ROOT], [], 3);
    ls, s := Take(d, {b}, ls, s, EndOfName);
  }

  lemma RootTwice(b: Name) returns (ls: seq<Label>, s: Loop)
    requires b != DUMMY_ROOT
    ensures Exec(RootGraph(b), {b}, ls) == Some(s)
    ensures s == Loop(map[b := 1, DUMMY_ROOT := 0xffff_ffff], {b}, [], {}, At(DUMMY_ROOT, 1),
        [DUMMY_ROOT, DUMMY_ROOT], [], 2)
  {
    var d := RootGraph(b);
    ls, s := RootOnce(b);
    ls, s := Take(d, {b}, ls, s, Recv);
    assert s == Loop(map[b := 1, DUMMY_ROOT := 0], {b}, [], {}, At(DUMMY_ROOT, 0), [DUMMY_ROOT, DUMMY_ROOT], [], 2);
    ls, s := Take(d, {b}, ls, s, Edge);
  }

  /** The root is its own child and comes out twice, its in-degree wraps, and the loop waits for ever for
      `b`, whose in-degree nothing decrements. */
  lemma RootIsService(b: Name) returns (ls: seq<Label>)
    requires b != DUMMY_ROOT
    ensures IsGraph(RootTable(b), RootGraph(b)) && Exec(RootGraph(b), {b}, ls).Some?
    ensures var s := Exec(RootGraph(b), {b}, ls).value;
            && s.cur.Waiting? && s.queue == [] && s.inflight == {} && s.received == [DUMMY_ROOT, DUMMY_ROOT]
            && Count(s.indegree, DUMMY_ROOT) == 0xffff_ffff && b in s.channels
  {
    RootGraphIsGraph(b);
    hide IsGraph;
    var s := Init(RootGraph(b), {b});
    ls, s := RootTwice(b);
    ls, s := Take(RootGraph(b), {b}, ls, s, EndOfName);
  }
}
