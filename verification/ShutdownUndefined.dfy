/** What an `after` entry that names no service does to shutdown. Such a name is released and consumes
    one unit of the loop's counter, but ord.rs:35 does not count it, so the loop can exit early. */
module ShutdownUndefined {
  import opened Basics
  import opened Ord
  import opened Paths
  import opened Shutdown
  import opened ShutdownOrder

  ghost predicate Undefined(t: AfterTable, g: Name) {
    g !in t && Listed(t, g)
  }

  /** Whatever is active and however the kill tasks are scheduled, an exit means every service came out. */
  ghost predicate AlwaysComplete(t: AfterTable, d: ProcessDAG) {
    forall active, ls :: Exec(d, active, ls).Some? && Exec(d, active, ls).value.cur.Exited?
      ==> t.Keys <= Elems(Exec(d, active, ls).value.received)
  }

  lemma ExecAppend(d: ProcessDAG, active: set<Name>, ls: seq<Label>, l: Label)
    requires Exec(d, active, ls).Some? && Enabled(d, Exec(d, active, ls).value, l)
    ensures Exec(d, active, ls + [l]) == Some(Apply(d, Exec(d, active, ls).value, l))
  {
    assert (ls + [l])[..|ls|] == ls;
  }

  lemma ReceivedGrows(d: ProcessDAG, s: Loop, l: Label)
    requires Enabled(d, s, l)
    ensures s.received <= Apply(d, s, l).received
  {
  }

  lemma NextStep(t: AfterTable, d: ProcessDAG, active: set<Name>, ls: seq<Label>) returns (l: Label)
    requires WellNamed(t) && IsDag(t, d) && Acyclic(t)
    requires Exec(d, active, ls).Some? && !Exec(d, active, ls).value.cur.Exited?
    ensures Exec(d, active, ls + [l]).Some?
    ensures Work(t, d, Exec(d, active, ls + [l]).value) < Work(t, d, Exec(d, active, ls).value)
    ensures Exec(d, active, ls).value.received <= Exec(d, active, ls + [l]).value.received
  {
    assert d.adj.Keys <= Nodes(t);
    hide WellNamed, IsDag, Acyclic, Work, Exec, Inv, Apply, Enabled;
    var s := Exec(d, active, ls).value;
    AcyclicProgress(t, d, active, ls);
    l :| Enabled(d, s, l);
    RunInv(t, d, active, ls);
    StepWork(t, d, active, s, l);
    ExecAppend(d, active, ls, l);
    ReceivedGrows(d, s, l);
  }

  /** Any unfinished run of an acyclic graph can be carried on to the exit. */
  lemma {:induction false} RunToExit(t: AfterTable, d: ProcessDAG, active: set<Name>, ls: seq<Label>)
      returns (full: seq<Label>)
    requires WellNamed(t) && IsDag(t, d) && Acyclic(t) && Exec(d, active, ls).Some?
    ensures Exec(d, active, full).Some? && Exec(d, active, full).value.cur.Exited?
    ensures Exec(d, active, ls).value.received <= Exec(d, active, full).value.received
    decreases Work(t, d, Exec(d, active, ls).value)
  {
    hide WellNamed, IsDag, Acyclic, Work, Exec;
    var s := Exec(d, active, ls).value;
    if s.cur.Exited? {
      full := ls;
    } else {
      var l := NextStep(t, d, active, ls);
      full := RunToExit(t, d, active, ls + [l]);
    }
  }

  /** Finish the row under the cursor: only inactive names join the queue. */
  lemma {:induction false} FinishRow(t: AfterTable, d: ProcessDAG, active: set<Name>, ls: seq<Label>)
      returns (more: seq<Label>)
    requires WellNamed(t) && IsDag(t, d) && Exec(d, active, ls).Some? && Exec(d, active, ls).value.cur.At?
    ensures Exec(d, active, more).Some? && !Exec(d, active, more).value.cur.At?
    ensures Exec(d, active, more).value.received == Exec(d, active, ls).value.received
    ensures forall x :: x in Exec(d, active, more).value.queue ==> x in Exec(d, active, ls).value.queue || x !in active
    decreases Work(t, d, Exec(d, active, ls).value)
  {
    hide WellNamed, Work, Exec;
    var s := Exec(d, active, ls).value;
    RunInv(t, d, active, ls);
    var l := if s.cur.i < |Children(d.adj, s.cur.name)| then Edge else EndOfName;
    StepWork(t, d, active, s, l);
    ExecAppend(d, active, ls, l);
    if l == Edge {
      NewInQueue(t, d, active, s);
      more := FinishRow(t, d, active, ls + [l]);
    } else {
      more := ls + [l];
    }
  }

  lemma NewInQueue(t: AfterTable, d: ProcessDAG, active: set<Name>, s: Loop)
    requires WellNamed(t) && IsDag(t, d) && Inv(t, d, active, s) && Enabled(d, s, Edge)
    ensures Apply(d, s, Edge).received == s.received && Apply(d, s, Edge).cur.At?
    ensures forall x :: x in Apply(d, s, Edge).queue ==> x in s.queue || x !in active
  {
    hide IsDag, WellNamed;
    NoUnderflow(t, d, active, s);
    var c := Children(d.adj, s.cur.name)[s.cur.i];
    assert c !in Zero(s.indegree);
    assert c in s.killed ==> c in Elems(s.killed);
  }

  /** Take the head of the queue and process it. */
  lemma ProcessHead(t: AfterTable, d: ProcessDAG, active: set<Name>, ls: seq<Label>) returns (more: seq<Label>)
    requires WellNamed(t) && IsDag(t, d) && Exec(d, active, ls).Some?
    requires Exec(d, active, ls).value.cur.Waiting? && Exec(d, active, ls).value.queue != []
    ensures Exec(d, active, more).Some? && !Exec(d, active, more).value.cur.At?
    ensures var s := Exec(d, active, ls).value; var s' := Exec(d, active, more).value;
            && s'.received == s.received + [s.queue[0]]
            && forall x :: x in s'.queue ==> x in s.queue[1..] || x !in active
  {
    hide WellNamed, IsDag, Exec;
    ExecAppend(d, active, ls, Recv);
    more := FinishRow(t, d, active, ls + [Recv]);
  }

  /** Follow unreceived listers backwards from the head of a chain until there is none. */
  lemma {:induction false} FindSource(t: AfterTable, received: seq<Name>, path: seq<Name>) returns (x: Name)
    requires Acyclic(t) && IsPath(t, path) && path[0] !in received
    ensures x !in received && Leads(t, x, path[|path| - 1])
    ensures forall p :: Lists(t, p, x) ==> p in received
    decreases |t| + 1 - |path|
  {
    PathInTable(t, path);
    if p :| Lists(t, p, path[0]) && p !in received {
      PathPrepend(t, path, p);
      PathInTable(t, [p] + path);
      x := FindSource(t, received, [p] + path);
    } else {
      x := path[0];
    }
  }

  lemma PathInTable(t: AfterTable, path: seq<Name>)
    requires Acyclic(t) && IsPath(t, path)
    ensures |path| <= |t| + 1
  {
    var front := path[..|path| - 1];
    forall i | 0 <= i < |front| ensures front[i] in t { assert Lists(t, path[i], path[i + 1]); }
    if |front| > |t| { PigeonHole(front, t.Keys); }
  }

  /** The root and the services that lead to `g`. */
  ghost function Ancestors(t: AfterTable, g: Name): set<Name> {
    {DUMMY_ROOT} + set p | p in t && Leads(t, p, g)
  }

  /** Between two names, only ancestors of `g` have come out and only inactive names are queued. */
  ghost predicate OnlyAncestors(t: AfterTable, g: Name, s: Loop) {
    && s.cur.Waiting? && DUMMY_ROOT in s.received
    && Elems(s.received) <= Ancestors(t, g)
    && forall x :: x in s.queue ==> x !in t
  }

  /** An ancestor of `g` (or `g`) whose listers have all come out has been released. */
  lemma SourceReleased(t: AfterTable, d: ProcessDAG, s: Loop, active: set<Name>, x: Name)
    requires WellNamed(t) && IsDag(t, d) && Inv(t, d, active, s)
    requires s.cur.Waiting? && DUMMY_ROOT in s.received && Mentioned(t, x) && x !in s.received
    requires forall p :: Lists(t, p, x) ==> p in s.received
    ensures x in s.queue || x in s.inflight
  {
    MentionedInDag(t, d, x);
    PendingPositive(d.adj, Nodes(t) - Elems(s.received), x);
    assert Count(s.indegree, x) == Left(t, d.adj, s.received, s.cur)[x];
    forall p | p in Nodes(t) - Elems(s.received) ensures x !in Children(d.adj, p) {
      assert p in t ==> !Lists(t, p, x);
    }
    assert x in Zero(s.indegree);
    assert x in multiset(Zero(s.indegree));
  }

  /** Let the next ancestor's kill task post, and process it. */
  lemma TakeAncestor(t: AfterTable, d: ProcessDAG, ls: seq<Label>, g: Name, n: Name) returns (more: seq<Label>)
    requires WellNamed(t) && IsDag(t, d) && Acyclic(t) && Undefined(t, g) && n in t && !Leads(t, n, g)
    requires Exec(d, t.Keys, ls).Some? && OnlyAncestors(t, g, Exec(d, t.Keys, ls).value)
    requires Exec(d, t.Keys, ls).value.queue == []
    ensures Exec(d, t.Keys, more).Some? && OnlyAncestors(t, g, Exec(d, t.Keys, more).value)
    ensures |Exec(d, t.Keys, more).value.received| == |Exec(d, t.Keys, ls).value.received| + 1
  {
    hide IsDag, WellNamed, Exec, Acyclic, Leads, Conserved, Ordered, Kills, ReleasedOnce, Left, Zero;
    var s := Exec(d, t.Keys, ls).value;
    RunInv(t, d, t.Keys, ls);
    var x := NextAncestor(t, d, t.Keys, s, g);
    ExecAppend(d, t.Keys, ls, Post(x));
    more := ProcessHead(t, d, t.Keys, ls + [Post(x)]);
    var s' := Exec(d, t.Keys, more).value;
    assert Elems(s'.received) == Elems(s.received) + {x};
    FewAncestors(t, s'.received, g, n, d, t.Keys, more);
    RunInv(t, d, t.Keys, more);
  }

  lemma {:induction false} ReachUndefined(t: AfterTable, d: ProcessDAG, ls: seq<Label>, g: Name, n: Name)
      returns (full: seq<Label>)
    requires WellNamed(t) && IsDag(t, d) && Acyclic(t) && Undefined(t, g) && n in t && !Leads(t, n, g)
    requires Exec(d, t.Keys, ls).Some? && OnlyAncestors(t, g, Exec(d, t.Keys, ls).value)
    ensures Exec(d, t.Keys, full).Some? && exists u :: u in Exec(d, t.Keys, full).value.received && u !in Nodes(t)
    decreases |t| + 1 - |Exec(d, t.Keys, ls).value.received|
  {
    hide IsDag, Exec, WellNamed, Acyclic;
    var s := Exec(d, t.Keys, ls).value;
    if s.queue != [] {
      RunInv(t, d, t.Keys, ls);
      QueueHead(s.received, s.queue, s.inflight, Zero(s.indegree));
      ExecAppend(d, t.Keys, ls, Recv);
      full := ls + [Recv];
      assert s.queue[0] in Exec(d, t.Keys, full).value.received;
      assert s.queue[0] in s.queue;
    } else {
      FewAncestors(t, s.received, g, n, d, t.Keys, ls);
      var more := TakeAncestor(t, d, ls, g, n);
      full := ReachUndefined(t, d, more, g, n);
    }
  }

  lemma NextAncestor(t: AfterTable, d: ProcessDAG, active: set<Name>, s: Loop, g: Name) returns (x: Name)
    requires WellNamed(t) && IsDag(t, d) && Acyclic(t) && Undefined(t, g) && active <= t.Keys
    requires Inv(t, d, active, s) && OnlyAncestors(t, g, s) && s.queue == []
    ensures x in s.inflight && x !in s.received && x in Ancestors(t, g)
  {
    assert g !in Ancestors(t, g);
    assert g !in Elems(s.received);
    x := FindSource(t, s.received, [g]);
    var path :| IsPath(t, path) && path[0] == x && path[|path| - 1] == g;
    assert Mentioned(t, x) by { if |path| > 1 { assert Lists(t, path[0], path[1]); } }
    SourceReleased(t, d, s, active, x);
  }

  lemma FewAncestors(t: AfterTable, received: seq<Name>, g: Name, n: Name, d: ProcessDAG, active: set<Name>,
      ls: seq<Label>)
    requires WellNamed(t) && IsDag(t, d) && Exec(d, active, ls).Some? && received == Exec(d, active, ls).value.received
    requires n in t && !Leads(t, n, g) && Elems(received) <= Ancestors(t, g)
    ensures |received| <= |t|
  {
    hide Exec;
    ShutdownOrderSafety(t, d, active, ls);
    DistinctCount(received);
    assert Ancestors(t, g) <= Nodes(t) - {n};
    assert |Nodes(t) - {n}| == |t|;
    SubsetCount(Elems(received), Nodes(t) - {n});
  }

  /** The root alone has come out. */
  lemma AfterRoot(t: AfterTable, d: ProcessDAG, g: Name) returns (ls: seq<Label>)
    requires WellNamed(t) && IsDag(t, d) && |t| > 0
    ensures Exec(d, t.Keys, ls).Some? && OnlyAncestors(t, g, Exec(d, t.Keys, ls).value)
  {
    hide IsDag;
    ls := ProcessHead(t, d, t.Keys, []);
    var s := Exec(d, t.Keys, ls).value;
    assert s.received == [DUMMY_ROOT];
    RunInv(t, d, t.Keys, ls);
    hide Left, Zero, Kills, ReleasedOnce, Conserved, Ordered, Leads;
  }

  /** One undefined name that some service does not lead to: some schedule exits without a service. */
  lemma IncompleteRun(t: AfterTable, d: ProcessDAG, g: Name, n: Name) returns (ls: seq<Label>)
    requires WellNamed(t) && IsDag(t, d) && Acyclic(t) && Undefined(t, g) && n in t && !Leads(t, n, g)
    ensures Exec(d, t.Keys, ls).Some? && Exec(d, t.Keys, ls).value.cur.Exited?
    ensures exists m :: m in t && m !in Exec(d, t.Keys, ls).value.received
  {
    hide IsDag, Acyclic, WellNamed, Exec, Leads, OnlyAncestors;
    var start := AfterRoot(t, d, g);
    var upto := ReachUndefined(t, d, start, g, n);
    ls := RunToExit(t, d, t.Keys, upto);
    var u :| u in Exec(d, t.Keys, upto).value.received && u !in Nodes(t);
    assert u in Exec(d, t.Keys, ls).value.received;
    CompleteIffNoUndefinedReceived(t, d, t.Keys, ls);
  }

  lemma CompleteRun(t: AfterTable, d: ProcessDAG, active: set<Name>, ls: seq<Label>)
    requires WellNamed(t) && IsDag(t, d)
    requires forall g, n :: Undefined(t, g) && n in t ==> Leads(t, n, g)
    requires Exec(d, active, ls).Some? && Exec(d, active, ls).value.cur.Exited?
    ensures t.Keys <= Elems(Exec(d, active, ls).value.received)
  {
    hide IsDag, Exec;
    var s := Exec(d, active, ls).value;
    ExitSets(t, d, active, ls);
    if !(Elems(s.received) <= Nodes(t)) {
      RunInv(t, d, active, ls);
      ShutdownOrderSafety(t, d, active, ls);
      var k :| 0 <= k < |s.received| && s.received[k] !in Nodes(t);
      var g := s.received[k];
      MentionedInDag(t, d, g);
      assert g in Elems(s.received);
      forall n | n in t ensures n in s.received {
        assert Undefined(t, g) && Leads(t, n, g);
        var path :| IsPath(t, path) && path[0] == n && path[|path| - 1] == g;
        ReceivedPath(t, s.received, path, k);
        assert n in path;
      }
    }
  }

  lemma AcyclicCompleteIff(t: AfterTable, d: ProcessDAG)
    requires WellNamed(t) && IsDag(t, d) && Acyclic(t)
    ensures AlwaysComplete(t, d) <==> forall g, n :: Undefined(t, g) && n in t ==> Leads(t, n, g)
  {
    hide IsDag, WellNamed, Exec;
    if forall g, n :: Undefined(t, g) && n in t ==> Leads(t, n, g) {
      forall active, ls | Exec(d, active, ls).Some? && Exec(d, active, ls).value.cur.Exited?
        ensures t.Keys <= Elems(Exec(d, active, ls).value.received)
      {
        CompleteRun(t, d, active, ls);
      }
    } else {
      var g, n :| Undefined(t, g) && n in t && !Leads(t, n, g);
      var ls := IncompleteRun(t, d, g, n);
      var m :| m in t && m !in Exec(d, t.Keys, ls).value.received;
      assert m !in Elems(Exec(d, t.Keys, ls).value.received);
    }
  }

  // ---------------------------------------------------------------- tables with a cycle

  /** Some service of the table is on the cycle itself. */
  lemma CycleHasService(t: AfterTable) returns (c: Name)
    requires !Acyclic(t)
    ensures c in t && BehindCycle(t, c)
  {
    var path :| IsPath(t, path) && !NoDup(path);
    var i, j :| 0 <= i < j < |path| && path[i] == path[j];
    var front := path[..j + 1];
    assert Lists(t, path[i], path[i + 1]);
    forall k | 0 <= k < |front| - 1 ensures Lists(t, front[k], front[k + 1]) { assert Lists(t, path[k], path[k + 1]); }
    assert front[i] == front[j];
    c := path[j];
  }

  /** Any run can be carried on until no step is left. */
  lemma {:induction false} RunToFinal(t: AfterTable, d: ProcessDAG, active: set<Name>, ls: seq<Label>)
      returns (full: seq<Label>)
    requires WellNamed(t) && IsDag(t, d) && Exec(d, active, ls).Some?
    ensures Exec(d, active, full).Some? && Final(d, Exec(d, active, full).value)
    decreases Work(t, d, Exec(d, active, ls).value)
  {
    assert d.adj.Keys <= Nodes(t);
    hide WellNamed, IsDag, Work, Exec, Inv, Apply, Enabled;
    var s := Exec(d, active, ls).value;
    if Final(d, s) {
      full := ls;
    } else {
      var l :| Enabled(d, s, l);
      RunInv(t, d, active, ls);
      StepWork(t, d, active, s, l);
      ExecAppend(d, active, ls, l);
      full := RunToFinal(t, d, active, ls + [l]);
    }
  }

  lemma RootOnly(d: ProcessDAG, active: set<Name>)
    ensures Exec(d, active, []) == Some(Init(d, active))
  {
  }

  lemma RootIsNoService(t: AfterTable)
    requires WellNamed(t)
    ensures DUMMY_ROOT !in t
  {
  }

  lemma CyclicCompleteIff(t: AfterTable, d: ProcessDAG)
    requires WellNamed(t) && IsDag(t, d) && !Acyclic(t)
    ensures AlwaysComplete(t, d) <==> |Releasable(t)| <= |t|
  {
    hide IsDag, WellNamed, Exec, Releasable, Acyclic, BehindCycle;
    if |Releasable(t)| <= |t| {
      forall active, ls ensures !(Exec(d, active, ls).Some? && Exec(d, active, ls).value.cur.Exited?) {
        if Exec(d, active, ls).Some? && Exec(d, active, ls).value.cur.Exited? { ExitNeedsEnough(t, d, active, ls); }
      }
    } else {
      RootOnly(d, t.Keys);
      var ls := RunToFinal(t, d, t.Keys, []);
      ExitsIffEnough(t, d, t.Keys, ls);
      var c := CycleHasService(t);
      ReceivedReleasable(t, d, t.Keys, ls);
      IsReleasable(t, c);
      RootIsNoService(t);
      assert c !in Elems(Exec(d, t.Keys, ls).value.received);
    }
  }

  /** Exactly when a table shuts down completely under every schedule, that is, when an exit means that
      every service came out: without cycles, when every undefined name is listed, directly or through
      other services, by every service of the table; with a cycle, when there are too few names for the
      loop to exit at all. */
  lemma AlwaysCompleteIff(t: AfterTable, d: ProcessDAG)
    requires WellNamed(t) && IsDag(t, d)
    ensures AlwaysComplete(t, d) <==>
              if Acyclic(t) then forall g, n :: Undefined(t, g) && n in t ==> Leads(t, n, g) else |Releasable(t)| <= |t|
  {
    hide IsDag, WellNamed, Exec, Releasable, Acyclic, AlwaysComplete;
    if Acyclic(t) { AcyclicCompleteIff(t, d); } else { CyclicCompleteIff(t, d); }
  }
}
