/** The loop of `kill_process_tree` itself, run against kill tasks that post whenever they like. */
module KillTree {
  import opened Basics
  import opened Ord
  import opened Paths
  import opened Shutdown
  import opened ShutdownOrder
  import opened ShutdownUndefined

  /** The local variables are the state of a run of the step system. */
  ghost predicate Tracks(t: AfterTable, d: ProcessDAG, active: set<Name>, ls: seq<Label>, s: Loop) {
    WellNamed(t) && IsDag(t, d) && Exec(d, active, ls) == Some(s)
  }

  lemma TrackStep(t: AfterTable, d: ProcessDAG, active: set<Name>, ls: seq<Label>, s: Loop, l: Label)
    requires Tracks(t, d, active, ls, s) && Enabled(d, s, l)
    ensures Tracks(t, d, active, ls + [l], Apply(d, s, l))
    ensures Work(t, d, Apply(d, s, l)) < Work(t, d, s)
  {
    hide Inv, Apply, Enabled, Work, WellNamed;
    RunInv(t, d, active, ls);
    StepWork(t, d, active, s, l);
    ExecAppend(d, active, ls, l);
  }

  /** Any of the kill tasks in flight may have posted, in any order; with `mustPost` the caller is
      blocked on an empty channel, so at least one has, if there is any. `s` is the caller's state. */
  method Await(ghost t: AfterTable, ghost d: ProcessDAG, ghost active: set<Name>, ghost ls: seq<Label>, ghost s: Loop,
               queue: seq<Name>, inflight: set<Name>, mustPost: bool)
      returns (queue': seq<Name>, inflight': set<Name>, ghost ls': seq<Label>)
    requires Tracks(t, d, active, ls, s) && queue == s.queue && inflight == s.inflight
    ensures Tracks(t, d, active, ls', s.(queue := queue', inflight := inflight'))
    ensures Work(t, d, s.(queue := queue', inflight := inflight')) <= Work(t, d, s)
    ensures mustPost && queue == [] && inflight != {} ==> queue' != []
    ensures mustPost && queue' == [] ==> inflight' == {}
  {
    hide Tracks, Work;
    queue', inflight', ls' := queue, inflight, ls;
    var blocked := mustPost && queue == [];
    while true
      invariant Tracks(t, d, active, ls', s.(queue := queue', inflight := inflight'))
      invariant Work(t, d, s.(queue := queue', inflight := inflight')) <= Work(t, d, s)
      invariant inflight' <= inflight
      invariant blocked || (mustPost ==> queue' != [])
      invariant blocked ==> mustPost && inflight' == inflight && queue' == []
      decreases inflight'
    {
      if inflight' == {} { break; }
      if !blocked {
        if * { break; }
      }
      var n :| n in inflight';
      TrackStep(t, d, active, ls', s.(queue := queue', inflight := inflight'), Post(n));
      queue', inflight', ls' := queue' + [n], inflight' - {n}, ls' + [Post(n)];
      blocked := false;
    }
  }

  lemma Start(t: AfterTable, d: ProcessDAG, active: set<Name>)
    requires WellNamed(t) && IsDag(t, d)
    ensures Tracks(t, d, active, [], Loop(d.indegree, active, [DUMMY_ROOT], {}, Waiting, [], [], d.count))
  {
  }

  /** The inner loop: consume the edges out of `name`, releasing each child whose in-degree gets to zero. */
  method ReleaseChildren(ghost t: AfterTable, dag: ProcessDAG, ghost active: set<Name>, ghost ls0: seq<Label>,
      name: Name,
                         indegree0: map<Name, nat>, channels0: set<Name>, queue0: seq<Name>, inflight0: set<Name>,
                         ghost received: seq<Name>, killed0: seq<Name>, ghost count: nat)
      returns (indegree: map<Name, nat>, channels: set<Name>, queue: seq<Name>, inflight: set<Name>,
        killed: seq<Name>, ghost ls: seq<Label>)
    requires Tracks(t, dag, active, ls0,
        Loop(indegree0, channels0, queue0, inflight0, At(name, 0), received, killed0, count))
    ensures Tracks(t, dag, active, ls,
        Loop(indegree, channels, queue, inflight, At(name, |Children(dag.adj, name)|), received, killed, count))
    ensures Work(t, dag,
        Loop(indegree, channels, queue, inflight, At(name, |Children(dag.adj, name)|), received, killed, count))
         <= Work(t, dag, Loop(indegree0, channels0, queue0, inflight0, At(name, 0), received, killed0, count))
  {
    hide Tracks, Work;
    indegree, channels, queue, inflight, killed, ls := indegree0, channels0, queue0, inflight0, killed0, ls0;
    var row := Children(dag.adj, name);
    for i := 0 to |row|
      invariant Tracks(t, dag, active, ls,
          Loop(indegree, channels, queue, inflight, At(name, i), received, killed, count))
      invariant Work(t, dag, Loop(indegree, channels, queue, inflight, At(name, i), received, killed, count))
             <= Work(t, dag, Loop(indegree0, channels0, queue0, inflight0, At(name, 0), received, killed0, count))
    {
      // tasks post while the loop runs, and while it waits for the kill task it has just started
      queue, inflight, ls :=
        Await(t, dag, active, ls, Loop(indegree, channels, queue, inflight, At(name, i), received, killed, count),
                                   queue, inflight, false);
      TrackStep(t, dag, active, ls,
                Loop(indegree, channels, queue, inflight, At(name, i), received, killed, count), Edge);
      ls := ls + [Edge];
      var child := row[i];
      var left := Decrement(Count(indegree, child));
      indegree := indegree[child := left];
      if left == 0 {
        if child !in channels {
          queue := queue + [child];
        } else {
          channels, inflight, killed := channels - {child}, inflight + {child}, killed + [child];
        }
      }
    }
  }

  /** The loop has exited, or waits with nothing queued and nothing in flight. */
  lemma Conclude(t: AfterTable, d: ProcessDAG, active: set<Name>, ls: seq<Label>, s: Loop)
    requires Tracks(t, d, active, ls, s) && (s.cur.Exited? || (s.cur.Waiting? && Quiescent(s)))
    ensures Exec(d, active, ls) == Some(s)
    ensures NoDup(s.received) && forall k, p :: 0 <= k < |s.received| && Lists(t, p, s.received[k]) ==>
        p in s.received[..k]
    ensures NoDup(s.killed) && forall c :: c in s.killed ==> c in active
    ensures s.cur.Exited? <==> |Releasable(t)| > |t|
    ensures !s.cur.Exited? ==> Elems(s.received) == Releasable(t)
    ensures AllDefined(t) ==> (s.cur.Exited? <==> Acyclic(t))
    ensures AllDefined(t) ==> forall c :: c in t ==> (c in s.received <==> !BehindCycle(t, c))
    ensures forall c :: c in s.received && c != DUMMY_ROOT ==> (c in s.killed <==> c in active)
    ensures AllDefined(t) ==> forall c :: c in s.killed ==> c in t && c in s.received
  {
    hide WellNamed, IsDag, Exec, Releasable;
    ShutdownOrderSafety(t, d, active, ls);
    if s.cur.Exited? { ExitNeedsEnough(t, d, active, ls); } else { WaitingReceived(t, d, active, ls); }
    KilledAreReceived(t, d, active, ls);
    assert forall c :: c in s.killed ==> c in Elems(s.killed);
    if AllDefined(t) {
      if s.cur.Exited? { ExitIsComplete(t, d, active, ls); }
      ExitsIffAcyclic(t, d, active, ls);
    }
  }

  /** The shutdown loop. It returns `exited == false` where the original would wait for ever on the
      death channel. Whatever the kill tasks do: names come out once and after all their listers, each
      active service gets at most one kill task; the loop gets through to count 0 exactly when enough
      names can be released, and is otherwise stuck with all of them received; with every `after` name
      defined that is exactly when the dependencies are acyclic. */
  method KillProcessTree(ghost t: AfterTable, dag: ProcessDAG, stateChannels: set<Name>)
      returns (received: seq<Name>, killed: seq<Name>, exited: bool, ghost ls: seq<Label>)
    requires WellNamed(t) && IsDag(t, dag)
    ensures Exec(dag, stateChannels, ls).Some?
    ensures received == Exec(dag, stateChannels, ls).value.received
        && killed == Exec(dag, stateChannels, ls).value.killed
    ensures NoDup(received) && forall k, p :: 0 <= k < |received| && Lists(t, p, received[k]) ==> p in received[..k]
    ensures NoDup(killed) && forall c :: c in killed ==> c in stateChannels
    ensures exited <==> |Releasable(t)| > |t|
    ensures !exited ==> Elems(received) == Releasable(t)
    ensures AllDefined(t) ==> (exited <==> Acyclic(t))
    ensures AllDefined(t) ==> forall c :: c in t ==> (c in received <==> !BehindCycle(t, c))
    ensures forall c :: c in received && c != DUMMY_ROOT ==> (c in killed <==> c in stateChannels)
    ensures AllDefined(t) ==> forall c :: c in killed ==> c in t && c in received
  {
    hide Tracks, Work, WellNamed, IsDag, Exec, Releasable;
    var indegree, channels, count := dag.indegree, stateChannels, dag.count;
    var queue: seq<Name>, inflight: set<Name> := [DUMMY_ROOT], {};
    received, killed, exited, ls := [], [], false, [];
    Start(t, dag, stateChannels);
    while true
      invariant Tracks(t, dag, stateChannels, ls,
          Loop(indegree, channels, queue, inflight, Waiting, received, killed, count))
      invariant !exited
      decreases Work(t, dag, Loop(indegree, channels, queue, inflight, Waiting, received, killed, count))
    {
      ghost var s := Loop(indegree, channels, queue, inflight, Waiting, received, killed, count);
      queue, inflight, ls := Await(t, dag, stateChannels, ls, s, queue, inflight, true);
      s := Loop(indegree, channels, queue, inflight, Waiting, received, killed, count);
      if queue == [] {
        Conclude(t, dag, stateChannels, ls, s);
        return;
      }
      TrackStep(t, dag, stateChannels, ls, s, Recv);
      ghost var work := Work(t, dag, s);
      ls := ls + [Recv];
      var name := queue[0];
      queue, received := queue[1..], received + [name];
      indegree, channels, queue, inflight, killed, ls :=
        ReleaseChildren(t, dag, stateChannels, ls, name, indegree, channels, queue, inflight, received, killed, count);
      s := Loop(indegree, channels, queue, inflight, At(name, |Children(dag.adj, name)|), received, killed, count);
      TrackStep(t, dag, stateChannels, ls, s, EndOfName);
      ls := ls + [EndOfName];
      count := Decrement(count);
      if count == 0 {
        exited := true;
        Conclude(t, dag, stateChannels, ls, Loop(indegree, channels, queue, inflight, Exited, received, killed, count));
        return;
      }
    }
  }
}
