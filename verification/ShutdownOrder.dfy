/** What the shutdown loop guarantees over all its runs. */
module ShutdownOrder {
  import opened Basics
  import opened Ord
  import opened Paths
  import opened Shutdown

  lemma Repeated<T>(s: seq<T>) returns (x: T)
    requires !NoDup(s)
    ensures multiset(s)[x] >= 2
  {
    var i, j :| 0 <= i < j < |s| && s[i] == s[j];
    x := s[i];
    assert s == s[..j] + s[j..];
    assert x == s[..j][i] && x == s[j..][0];
    assert multiset(s) == multiset(s[..j]) + multiset(s[j..]);
    assert x in multiset(s[..j]) && x in multiset(s[j..]);
  }

  lemma {:induction false} SetOnce(received: seq<Name>, queue: seq<Name>, inflight: set<Name>, released: set<Name>)
    requires ReleasedOnce(received, queue, inflight, released)
    ensures NoDup(received)
    ensures Elems(received) <= released && Elems(queue) <= released
    ensures queue == [] && inflight == {} ==> Elems(received) == released
    ensures Elems(received) == released ==> queue == [] && inflight == {}
  {
    forall x ensures multiset(received)[x] <= 1 {
      assert multiset(received)[x] + multiset(queue)[x] + multiset(inflight)[x] == multiset(released)[x];
    }
    if !NoDup(received) { var _ := Repeated(received); }
    assert queue != [] ==> queue[0] in queue;
    forall x ensures x in received || x in queue || x in inflight <==> x in released {
      assert multiset(received)[x] + multiset(queue)[x] + multiset(inflight)[x] == multiset(released)[x];
    }
    if Elems(received) == released {
      forall x | x in released ensures x !in queue && x !in inflight {
        assert multiset(received)[x] + multiset(queue)[x] + multiset(inflight)[x] == multiset(released)[x];
        assert x in received;
      }
    }
  }

  /** Shutdown order, for every interleaving of the loop with its kill tasks: names leave the death
      channel once, and after every service that lists them; a kill task is started at most once,
      for a service active at the snapshot, when every service that lists it has left the channel. */
  lemma ShutdownOrderSafety(t: AfterTable, d: ProcessDAG, active: set<Name>, ls: seq<Label>)
    requires WellNamed(t) && IsDag(t, d) && Exec(d, active, ls).Some?
    ensures var s := Exec(d, active, ls).value;
            && NoDup(s.received)
            && (forall k, p :: 0 <= k < |s.received| && Lists(t, p, s.received[k]) ==> p in s.received[..k])
            && NoDup(s.killed) && Elems(s.killed) <= active && s.inflight <= Elems(s.killed)
            && (forall c, p :: (c in s.killed || c in s.queue) && Lists(t, p, c) ==> p in s.received)
  {
    hide WellNamed, Exec;
    var s := Exec(d, active, ls).value;
    RunInv(t, d, active, ls);
    SetOnce(s.received, s.queue, s.inflight, Zero(s.indegree));
    forall p, c | Lists(t, p, c) ensures p in d.adj && d.adj[p] == t[p] {
      assert Children(d.adj, p) == t[p];
    }
    forall c, p | (c in s.killed || c in s.queue) && Lists(t, p, c) ensures p in s.received {
      assert c in Zero(s.indegree);
      ReleasedAfterListers(t, d, s, c, p);
    }
  }

  // ---------------------------------------------------------------- what gets released

  ghost predicate OrderedIn(t: AfterTable, received: seq<Name>) {
    && NoDup(received)
    && forall k, p :: 0 <= k < |received| && Lists(t, p, received[k]) ==> p in received[..k]
  }

  /** Along a chain into a received name the positions increase, so the chain repeats nothing. */
  lemma {:induction false} ReceivedPath(t: AfterTable, received: seq<Name>, path: seq<Name>, k: nat)
    requires OrderedIn(t, received) && IsPath(t, path)
    requires k < |received| && path[|path| - 1] == received[k]
    ensures NoDup(path) && forall x :: x in path ==> x in received[..k + 1]
  {
    if |path| > 1 {
      var front := path[..|path| - 1];
      var p := front[|front| - 1];
      assert Lists(t, p, path[|path| - 1]);
      var j :| 0 <= j < k && received[j] == p;
      ReceivedPath(t, received, front, j);
      assert path == front + [received[k]];
      forall x | x in path ensures x in received[..k + 1] {
        if x in front {
          var i :| 0 <= i < j + 1 && received[..j + 1][i] == x;
          assert received[..k + 1][i] == x;
        } else {
          assert received[..k + 1][k] == x;
        }
      }
      assert received[k] !in front;
    } else {
      assert path == [received[k]];
      assert received[..k + 1][k] == received[k];
    }
  }

  ghost predicate Mentioned(t: AfterTable, c: Name) {
    c in t || Listed(t, c)
  }

  lemma MentionedInDag(t: AfterTable, d: ProcessDAG, c: Name)
    requires WellNamed(t) && IsDag(t, d)
    ensures c in d.indegree <==> Mentioned(t, c)
  {
    PendingPositive(d.adj, Nodes(t), c);
    assert Count(d.indegree, c) == Pending(d.adj, Nodes(t))[c];
    if c in d.indegree {
      var p :| p in Nodes(t) && c in Children(d.adj, p);
      assert p in t ==> Lists(t, p, c);
    }
    if p :| Lists(t, p, c) {
      assert c in Children(d.adj, p);
    } else if c in t {
      assert c in Children(d.adj, DUMMY_ROOT);
    }
  }

  ghost predicate Quiescent(s: Loop) {
    !s.cur.At? && s.queue == [] && s.inflight == {}
  }

  /** When the loop waits and nothing can come, a name it never received is listed by another such service. */
  lemma StuckLister(t: AfterTable, d: ProcessDAG, active: set<Name>, s: Loop, c: Name) returns (p: Name)
    requires WellNamed(t) && IsDag(t, d) && Inv(t, d, active, s)
    requires Quiescent(s) && s.cur.Waiting?
    requires Mentioned(t, c) && c !in s.received
    ensures Lists(t, p, c) && p !in s.received
  {
    SetOnce(s.received, s.queue, s.inflight, Zero(s.indegree));
    MentionedInDag(t, d, c);
    assert c !in Elems(s.received);
    var dom := Nodes(t) - Elems(s.received);
    assert Count(s.indegree, c) == Left(t, d.adj, s.received, s.cur)[c];
    PendingPositive(d.adj, dom, c);
    p :| p in dom && c in Children(d.adj, p);
    assert DUMMY_ROOT in Elems(s.received);
  }

  lemma {:induction false} StuckPath(t: AfterTable, d: ProcessDAG, active: set<Name>, s: Loop, c: Name, n: nat)
      returns (path: seq<Name>)
    requires WellNamed(t) && IsDag(t, d) && Inv(t, d, active, s)
    requires Quiescent(s) && s.cur.Waiting?
    requires Mentioned(t, c) && c !in s.received
    ensures IsPath(t, path) && |path| == n + 1 && path[n] == c && Elems(path[..n]) <= t.Keys
    decreases n
  {
    hide IsDag, WellNamed, Inv;
    if n == 0 {
      path := [c];
    } else {
      var p := StuckLister(t, d, active, s, c);
      var front := StuckPath(t, d, active, s, p, n - 1);
      PathExtend(t, front, c);
      path := front + [c];
      assert front == front[..n - 1] + [p];
      assert path[..n] == front;
    }
  }

  lemma ReceivedIsFree(t: AfterTable, received: seq<Name>, c: Name)
    requires OrderedIn(t, received) && c in received
    ensures !BehindCycle(t, c)
  {
    forall path | IsPath(t, path) && path[|path| - 1] == c ensures NoDup(path) {
      var k :| 0 <= k < |received| && received[k] == c;
      ReceivedPath(t, received, path, k);
    }
  }

  lemma StuckIsBehindCycle(t: AfterTable, d: ProcessDAG, active: set<Name>, s: Loop, c: Name)
    requires WellNamed(t) && IsDag(t, d) && Inv(t, d, active, s)
    requires Quiescent(s) && s.cur.Waiting? && Mentioned(t, c) && c !in s.received
    ensures BehindCycle(t, c)
  {
    var path := StuckPath(t, d, active, s, c, |t| + 1);
    PigeonHole(path[..|t| + 1], t.Keys);
  }

  /** Every waiting, quiescent state has received the root and exactly the names that are neither on a
      dependency cycle nor after one, whatever the schedule of the kill tasks was. */
  lemma ReleasedWhenQuiescent(t: AfterTable, d: ProcessDAG, active: set<Name>, ls: seq<Label>, c: Name)
    requires WellNamed(t) && IsDag(t, d) && Exec(d, active, ls).Some?
    requires Quiescent(Exec(d, active, ls).value) && Exec(d, active, ls).value.cur.Waiting?
    ensures c in Exec(d, active, ls).value.received <==> c == DUMMY_ROOT || (Mentioned(t, c) && !BehindCycle(t, c))
  {
    hide IsDag, WellNamed;
    var s := Exec(d, active, ls).value;
    RunInv(t, d, active, ls);
    ShutdownOrderSafety(t, d, active, ls);
    SetOnce(s.received, s.queue, s.inflight, Zero(s.indegree));
    MentionedInDag(t, d, c);
    assert c in s.received <==> c in Elems(s.received);
    assert c in Zero(s.indegree) ==> c == DUMMY_ROOT || c in d.indegree;
    assert DUMMY_ROOT in Elems(s.received);
    hide Inv, BehindCycle;
    if c in s.received {
      ReceivedIsFree(t, s.received, c);
    } else if Mentioned(t, c) {
      StuckIsBehindCycle(t, d, active, s, c);
    }
  }

  // ---------------------------------------------------------------- completion

  lemma ExitSets(t: AfterTable, d: ProcessDAG, active: set<Name>, ls: seq<Label>)
    requires WellNamed(t) && IsDag(t, d) && Exec(d, active, ls).Some? && Exec(d, active, ls).value.cur.Exited?
    ensures var s := Exec(d, active, ls).value;
            && Elems(s.received) <= Zero(s.indegree)
            && (t.Keys <= Elems(s.received) <==> Elems(s.received) <= Nodes(t))
            && (t.Keys <= Elems(s.received) ==> Elems(s.received) == Nodes(t))
  {
    hide IsDag;
    var s := Exec(d, active, ls).value;
    RunInv(t, d, active, ls);
    SetOnce(s.received, s.queue, s.inflight, Zero(s.indegree));
    DistinctCount(s.received);
    assert |Nodes(t)| == |t| + 1;
    if Elems(s.received) <= Nodes(t) { SubsetCount(Elems(s.received), Nodes(t)); }
    if t.Keys <= Elems(s.received) {
      RootReceived(d, active, ls);
      SubsetCount(Nodes(t), Elems(s.received));
    }
  }

  /** The root comes out first. */
  lemma {:induction false} RootReceived(d: ProcessDAG, active: set<Name>, ls: seq<Label>)
    requires Exec(d, active, ls).Some?
    ensures var s := Exec(d, active, ls).value;
            if s.received == [] then s.cur.Waiting? && s.queue != [] && s.queue[0] == DUMMY_ROOT
            else s.received[0] == DUMMY_ROOT
    decreases |ls|
  {
    if ls == [] {
    } else {
      RootReceived(d, active, ls[..|ls| - 1]);
    }
  }

  /** Per run, with or without undefined names: the loop that reached count 0 received every service
      of the table exactly when it received no undefined name. */
  lemma CompleteIffNoUndefinedReceived(t: AfterTable, d: ProcessDAG, active: set<Name>, ls: seq<Label>)
    requires WellNamed(t) && IsDag(t, d) && Exec(d, active, ls).Some? && Exec(d, active, ls).value.cur.Exited?
    ensures var s := Exec(d, active, ls).value;
            (forall n :: n in t ==> n in s.received) <==> (forall n :: n in s.received ==> n in t || n == DUMMY_ROOT)
  {
    hide IsDag, WellNamed, Exec;
    ExitSets(t, d, active, ls);
    var s := Exec(d, active, ls).value;
    if forall n :: n in s.received ==> n in t || n == DUMMY_ROOT {
      assert Elems(s.received) <= Nodes(t);
    }
    if Elems(s.received) <= Nodes(t) {
      forall n | n in s.received ensures n in t || n == DUMMY_ROOT { assert n in Elems(s.received); }
    }
    assert t.Keys <= Elems(s.received) <==> forall n :: n in t ==> n in s.received;
  }

  lemma WaitingCount(t: AfterTable, d: ProcessDAG, active: set<Name>, ls: seq<Label>)
    requires WellNamed(t) && IsDag(t, d) && Exec(d, active, ls).Some?
    requires Quiescent(Exec(d, active, ls).value) && Exec(d, active, ls).value.cur.Waiting?
    ensures exists c :: c in t && BehindCycle(t, c)
  {
    hide IsDag;
    var s := Exec(d, active, ls).value;
    RunInv(t, d, active, ls);
    SetOnce(s.received, s.queue, s.inflight, Zero(s.indegree));
    ReleasedWhenQuiescent(t, d, active, ls, DUMMY_ROOT);
    if forall c :: c in t ==> c in s.received {
      NodesCount(t, s.received);
    } else {
      var c :| c in t && c !in s.received;
      ReleasedWhenQuiescent(t, d, active, ls, c);
    }
  }

  lemma NodesCount(t: AfterTable, received: seq<Name>)
    requires NoDup(received) && DUMMY_ROOT !in t && DUMMY_ROOT in received && forall c :: c in t ==> c in received
    ensures |received| >= |t| + 1
  {
    DistinctCount(received);
    assert Nodes(t) <= Elems(received);
    assert |Nodes(t)| == |t| + 1;
    SubsetCount(Nodes(t), Elems(received));
  }

  /** No step can be taken: the loop has exited, or it waits with nothing queued and no kill task left. */
  ghost predicate Final(d: ProcessDAG, s: Loop) {
    forall l :: !Enabled(d, s, l)
  }

  lemma FinalIsQuiescent(t: AfterTable, d: ProcessDAG, active: set<Name>, s: Loop)
    requires Inv(t, d, active, s) && Final(d, s)
    ensures s.inflight == {} && !s.cur.At? && (s.cur.Waiting? ==> Quiescent(s))
  {
    assert !Enabled(d, s, Recv) && !Enabled(d, s, Edge) && !Enabled(d, s, EndOfName);
    if n :| n in s.inflight { assert Enabled(d, s, Post(n)); }
  }

  /** With every `after` name defined, the loop that exits has received each of the table's names and
      the root, exactly once, and leaves nothing queued and no kill task in flight. */
  lemma ExitIsComplete(t: AfterTable, d: ProcessDAG, active: set<Name>, ls: seq<Label>)
    requires WellNamed(t) && IsDag(t, d) && AllDefined(t)
    requires Exec(d, active, ls).Some? && Exec(d, active, ls).value.cur.Exited?
    ensures var s := Exec(d, active, ls).value;
            NoDup(s.received) && Elems(s.received) == Nodes(t) && s.queue == [] && s.inflight == {}
  {
    var s := Exec(d, active, ls).value;
    RunInv(t, d, active, ls);
    SetOnce(s.received, s.queue, s.inflight, Zero(s.indegree));
    ExitSets(t, d, active, ls);
    forall c | c in Zero(s.indegree) ensures c in Nodes(t) { MentionedInDag(t, d, c); }
  }

  /** For every table whose `after` names are all defined and every schedule that has run its course:
      the loop got through to count 0 if and only if the dependencies are acyclic, and either way it
      received exactly the names that are not on or after a cycle. */
  lemma ExitsIffAcyclic(t: AfterTable, d: ProcessDAG, active: set<Name>, ls: seq<Label>)
    requires WellNamed(t) && IsDag(t, d) && AllDefined(t)
    requires Exec(d, active, ls).Some? && Final(d, Exec(d, active, ls).value)
    ensures Exec(d, active, ls).value.cur.Exited? <==> Acyclic(t)
    ensures forall c :: c in t ==> (c in Exec(d, active, ls).value.received <==> !BehindCycle(t, c))
  {
    hide IsDag;
    var s := Exec(d, active, ls).value;
    RunInv(t, d, active, ls);
    FinalIsQuiescent(t, d, active, s);
    if s.cur.Exited? {
      ExitIsComplete(t, d, active, ls);
      ShutdownOrderSafety(t, d, active, ls);
      forall path | IsPath(t, path) ensures NoDup(path) {
        PathEndsIn(t, path);
        assert path[|path| - 1] in t ==> path[|path| - 1] in Elems(s.received);
        if path[|path| - 1] in t {
          var k :| 0 <= k < |s.received| && s.received[k] == path[|path| - 1];
          ReceivedPath(t, s.received, path, k);
        }
      }
    } else {
      WaitingCount(t, d, active, ls);
      forall c | c in t ensures c in s.received <==> !BehindCycle(t, c) {
        ReleasedWhenQuiescent(t, d, active, ls, c);
      }
    }
  }

  lemma PathEndsIn(t: AfterTable, path: seq<Name>)
    requires IsPath(t, path) && AllDefined(t)
    ensures |path| == 1 || path[|path| - 1] in t
  {
    if |path| > 1 { assert Lists(t, path[|path| - 2], path[|path| - 1]); }
  }

  /** In an acyclic graph the loop is never stuck: until it exits, some step is possible. */
  lemma AcyclicProgress(t: AfterTable, d: ProcessDAG, active: set<Name>, ls: seq<Label>)
    requires WellNamed(t) && IsDag(t, d) && Acyclic(t)
    requires Exec(d, active, ls).Some? && !Exec(d, active, ls).value.cur.Exited?
    ensures exists l :: Enabled(d, Exec(d, active, ls).value, l)
  {
    var s := Exec(d, active, ls).value;
    RunInv(t, d, active, ls);
    if Final(d, s) {
      FinalIsQuiescent(t, d, active, s);
      WaitingCount(t, d, active, ls);
    }
  }

  // ---------------------------------------------------------------- with and without undefined names

  /** The names a shutdown can get to: the root, and every name that is not on or after a cycle. */
  ghost function Releasable(t: AfterTable): set<Name> {
    {DUMMY_ROOT}
    + (set c | c in t && !BehindCycle(t, c))
    + (set p, i | p in t && 0 <= i < |t[p]| && !BehindCycle(t, t[p][i]) :: t[p][i])
  }

  lemma IsReleasable(t: AfterTable, c: Name)
    ensures c in Releasable(t) <==> c == DUMMY_ROOT || (Mentioned(t, c) && !BehindCycle(t, c))
  {
    hide BehindCycle;
    if Listed(t, c) && !BehindCycle(t, c) {
      var p :| Lists(t, p, c);
      var i :| 0 <= i < |t[p]| && t[p][i] == c;
      assert c in Releasable(t);
    }
    if p, i :| p in t && 0 <= i < |t[p]| && !BehindCycle(t, t[p][i]) && t[p][i] == c { assert Lists(t, p, c); }
  }

  lemma ReceivedReleasable(t: AfterTable, d: ProcessDAG, active: set<Name>, ls: seq<Label>)
    requires WellNamed(t) && IsDag(t, d) && Exec(d, active, ls).Some?
    ensures NoDup(Exec(d, active, ls).value.received) && Elems(Exec(d, active, ls).value.received) <= Releasable(t)
  {
    hide IsDag, WellNamed, Releasable, BehindCycle;
    var s := Exec(d, active, ls).value;
    RunInv(t, d, active, ls);
    ShutdownOrderSafety(t, d, active, ls);
    SetOnce(s.received, s.queue, s.inflight, Zero(s.indegree));
    hide Exec;
    forall c | c in Elems(s.received) ensures c in Releasable(t) {
      MentionedInDag(t, d, c);
      ReceivedIsFree(t, s.received, c);
      IsReleasable(t, c);
      assert c in Zero(s.indegree);
    }
  }

  /** An exit takes more names that can be released than the table has services. */
  lemma ExitNeedsEnough(t: AfterTable, d: ProcessDAG, active: set<Name>, ls: seq<Label>)
    requires WellNamed(t) && IsDag(t, d) && Exec(d, active, ls).Some? && Exec(d, active, ls).value.cur.Exited?
    ensures |Releasable(t)| > |t|
  {
    hide IsDag, WellNamed, Releasable;
    var s := Exec(d, active, ls).value;
    RunInv(t, d, active, ls);
    ReceivedReleasable(t, d, active, ls);
    DistinctCount(s.received);
    SubsetCount(Elems(s.received), Releasable(t));
  }

  lemma WaitingReceived(t: AfterTable, d: ProcessDAG, active: set<Name>, ls: seq<Label>)
    requires WellNamed(t) && IsDag(t, d) && Exec(d, active, ls).Some?
    requires Quiescent(Exec(d, active, ls).value) && Exec(d, active, ls).value.cur.Waiting?
    ensures Elems(Exec(d, active, ls).value.received) == Releasable(t) && |Releasable(t)| <= |t|
  {
    hide IsDag, WellNamed, Releasable, BehindCycle;
    var s := Exec(d, active, ls).value;
    RunInv(t, d, active, ls);
    ReceivedReleasable(t, d, active, ls);
    forall c | c in Releasable(t) ensures c in Elems(s.received) {
      IsReleasable(t, c);
      ReleasedWhenQuiescent(t, d, active, ls, c);
    }
    DistinctCount(s.received);
  }

  /** For every table whatever, and every schedule that has run its course: the loop exited if and only
      if more names can be released than the table has services, and if it is stuck it has received
      exactly those. Undefined names count as released; that is how they can stand in for services. */
  lemma ExitsIffEnough(t: AfterTable, d: ProcessDAG, active: set<Name>, ls: seq<Label>)
    requires WellNamed(t) && IsDag(t, d) && Exec(d, active, ls).Some? && Final(d, Exec(d, active, ls).value)
    ensures Exec(d, active, ls).value.cur.Exited? <==> |Releasable(t)| > |t|
    ensures !Exec(d, active, ls).value.cur.Exited? ==> Elems(Exec(d, active, ls).value.received) == Releasable(t)
  {
    hide IsDag, WellNamed, Releasable;
    RunInv(t, d, active, ls);
    FinalIsQuiescent(t, d, active, Exec(d, active, ls).value);
    if Exec(d, active, ls).value.cur.Exited? {
      ExitNeedsEnough(t, d, active, ls);
    } else {
      WaitingReceived(t, d, active, ls);
    }
  }

  lemma KillsOfReleased(active: set<Name>, channels: set<Name>, killed: seq<Name>, inflight: set<Name>,
      released: set<Name>, c: Name)
    requires Kills(active, channels, killed, inflight, released)
    ensures c in released && c != DUMMY_ROOT ==> (c in killed <==> c in active)
    ensures c in killed ==> c in released && c != DUMMY_ROOT && c in active
  {
    assert c in killed <==> c in Elems(killed);
    assert c in channels && c in released ==> c in channels * released;
    assert c in Elems(killed) + channels <==> c in active;
  }

  /** A name that came out had a kill task if it was active at the snapshot, and was passed through if
      not; and when nothing is queued or in flight, only such names had one. */
  lemma KilledAreReceived(t: AfterTable, d: ProcessDAG, active: set<Name>, ls: seq<Label>)
    requires WellNamed(t) && IsDag(t, d) && Exec(d, active, ls).Some?
    ensures var s := Exec(d, active, ls).value;
            && (forall c :: c in s.received && c != DUMMY_ROOT ==> (c in s.killed <==> c in active))
            && (s.queue == [] && s.inflight == {} ==>
                  forall c :: c in s.killed ==> c in s.received && c != DUMMY_ROOT && c in active && Mentioned(t, c))
  {
    hide IsDag, WellNamed, Conserved, Counted, Ordered;
    var s := Exec(d, active, ls).value;
    RunInv(t, d, active, ls);
    SetOnce(s.received, s.queue, s.inflight, Zero(s.indegree));
    hide Exec, Kills, ReleasedOnce;
    forall c | c in s.received && c != DUMMY_ROOT ensures c in s.killed <==> c in active {
      assert c in Elems(s.received);
      KillsOfReleased(active, s.channels, s.killed, s.inflight, Zero(s.indegree), c);
    }
    if s.queue == [] && s.inflight == {} {
      forall c | c in s.killed ensures c in s.received && c != DUMMY_ROOT && c in active && Mentioned(t, c) {
        KillsOfReleased(active, s.channels, s.killed, s.inflight, Zero(s.indegree), c);
        assert c in Elems(s.received);
        MentionedInDag(t, d, c);
      }
    }
  }

  // ---------------------------------------------------------------- conservation

  /** In every reachable state each in-degree is the number of edges (with repetitions) that enter the
      name and have not been consumed; the in-degree an edge decrements and the count a name decrements
      are positive, and no entry is ever added to the map. */
  lemma InDegreesConserved(t: AfterTable, d: ProcessDAG, active: set<Name>, ls: seq<Label>)
    requires WellNamed(t) && IsDag(t, d) && Exec(d, active, ls).Some?
    ensures var s := Exec(d, active, ls).value;
            && (forall c :: Count(s.indegree, c) == Left(t, d.adj, s.received, s.cur)[c])
            && s.indegree.Keys == d.indegree.Keys
            && (Enabled(d, s, Edge) ==> Count(s.indegree, Children(d.adj, s.cur.name)[s.cur.i]) > 0)
            && (Enabled(d, s, EndOfName) ==> s.count > 0)
  {
    hide IsDag, WellNamed;
    var s := Exec(d, active, ls).value;
    RunInv(t, d, active, ls);
    hide Exec, Left;
    if Enabled(d, s, Edge) { NoUnderflow(t, d, active, s); }
  }

  // ---------------------------------------------------------------- termination

  ghost function Work(t: AfterTable, d: ProcessDAG, s: Loop): nat {
    5 * |Left(t, d.adj, s.received, s.cur)| + 3 * |s.inflight| + 2 * |s.queue| + if s.cur.At? then 1 else 0
  }

  /** An edge adds at most one name to the tasks or to the queue. */
  lemma EdgeWeight(d: ProcessDAG, s: Loop)
    requires Enabled(d, s, Edge)
    ensures var s' := Apply(d, s, Edge);
            3 * |s'.inflight| + 2 * |s'.queue| <= 3 * |s.inflight| + 2 * |s.queue| + 3
  {
  }

  lemma EdgeWork(t: AfterTable, d: ProcessDAG, s: Loop)
    requires Enabled(d, s, Edge)
    ensures Work(t, d, Apply(d, s, Edge)) < Work(t, d, s)
  {
    EdgeLeft(t, d.adj, s.received, s.cur.name, s.cur.i);
    EdgeFrame(d, s);
    EdgeWeight(d, s);
    hide Left, Apply;
  }

  lemma StepWork(t: AfterTable, d: ProcessDAG, active: set<Name>, s: Loop, l: Label)
    requires d.adj.Keys <= Nodes(t) && Inv(t, d, active, s) && Enabled(d, s, l)
    ensures Work(t, d, Apply(d, s, l)) < Work(t, d, s)
  {
    hide Left;
    match l
    case Recv =>
      QueueHead(s.received, s.queue, s.inflight, Zero(s.indegree));
      RecvLeft(t, d.adj, s.received, s.queue[0]);
    case Edge => EdgeWork(t, d, s);
    case EndOfName => EndLeft(t, d.adj, s.received, s.cur.name);
    case Post(n) =>
  }

  /** Every run is finite: at most five steps an edge, and two more. */
  lemma {:induction false} RunLength(t: AfterTable, d: ProcessDAG, active: set<Name>, ls: seq<Label>)
    requires WellNamed(t) && IsDag(t, d) && Exec(d, active, ls).Some?
    ensures |ls| + Work(t, d, Exec(d, active, ls).value) <= 5 * |Pending(d.adj, Nodes(t))| + 2
    decreases |ls|
  {
    if ls == [] {
      assert Nodes(t) - Elems<Name>([]) == Nodes(t);
    } else {
      var m := Exec(d, active, ls[..|ls| - 1]).value;
      RunLength(t, d, active, ls[..|ls| - 1]);
      RunInv(t, d, active, ls[..|ls| - 1]);
      StepWork(t, d, active, m, ls[|ls| - 1]);
    }
  }
}
