/** The shutdown loop and the watcher protocol as one system: `power` from its snapshot on, with every
    watcher, API call and kill task running beside it. */
module PowerRuns {
  import opened Basics
  import opened Ord
  import opened Paths
  import opened ShutdownOrder
  import S = Shutdown
  import W = Watch
  import Service
  import Supervision
  import Trace
  import WatchRuns
  import Kills
  import Departures
  import Limits
  import StateRelation

  /** `tasks` is the kill task the loop has started for each name. */
  datatype Both = Both(loop: S.Loop, sys: W.Sys, tasks: map<Name, W.Kid>)

  /** A step of the loop alone; an edge of the loop that starts a kill task; the end of such a task, with
      its post to the death channel; and anything else that may happen to the services. */
  datatype Label = Loop(l: S.Label) | Start(k: W.Kid) | Post(n: Name) | Beside(w: W.Label)

  function Target(d: ProcessDAG, s: S.Loop): Name
    requires S.Enabled(d, s, S.Edge)
  {
    Children(d.adj, s.cur.name)[s.cur.i]
  }

  predicate StartsTask(d: ProcessDAG, s: S.Loop) {
    S.Enabled(d, s, S.Edge) && Target(d, s) in s.channels && S.Decrement(Count(s.indegree, Target(d, s))) == 0
  }

  predicate Enabled(d: ProcessDAG, b: Both, l: Label) {
    match l
    case Loop(m) => !m.Post? && S.Enabled(d, b.loop, m) && (m.Edge? ==> !StartsTask(d, b.loop))
    case Start(k) => StartsTask(d, b.loop) && W.Enabled(b.sys, W.Shuts(k, W.KillTask(Target(d, b.loop))))
    case Post(n) => S.Enabled(d, b.loop, S.Post(n)) && n in b.tasks && W.Enabled(b.sys, W.Shuts(b.tasks[n], W.KillPost))
    case Beside(m) => W.Enabled(b.sys, m) && !(m.Shuts? && m.d.KillPost? && m.k in b.tasks.Values)
  }

  function Apply(d: ProcessDAG, b: Both, l: Label): Both
    requires Enabled(d, b, l)
  {
    match l
    case Loop(m) => b.(loop := S.Apply(d, b.loop, m))
    case Start(k) =>
      var n := Target(d, b.loop);
      Both(S.Apply(d, b.loop, S.Edge), W.Apply(b.sys, W.Shuts(k, W.KillTask(n))), b.tasks[n := k])
    case Post(n) => b.(loop := S.Apply(d, b.loop, S.Post(n)), sys := W.Apply(b.sys, W.Shuts(b.tasks[n], W.KillPost)))
    case Beside(m) => b.(sys := W.Apply(b.sys, m))
  }

  /** The services `power` finds active, by name. */
  ghost function Snapshot(s: W.Sys): set<Name> {
    set n | n in s.table && s.table[n] in s.svc && s.svc[s.table[n]].v.state.IsActive()
  }

  function Init(d: ProcessDAG, active: set<Name>, s: W.Sys): Both {
    Both(S.Init(d, active), s, map[])
  }

  /** A run of both, from the state `s` at the snapshot. */
  ghost function Exec(d: ProcessDAG, s: W.Sys, ls: seq<Label>): Option<Both>
    decreases |ls|
  {
    if ls == [] then Some(Init(d, Snapshot(s), s)) else
    match Exec(d, s, ls[..|ls| - 1])
    case None => None
    case Some(b) => if Enabled(d, b, ls[|ls| - 1]) then Some(Apply(d, b, ls[|ls| - 1])) else None
  }

  // ---------------------------------------------------------------- each part runs as it does alone

  lemma WatchAppend(pre: seq<W.Label>, right: seq<W.Label>, s: W.Sys, m: W.Label)
    requires W.Exec(pre + right) == Some(s) && W.Enabled(s, m)
    ensures W.Exec(pre + (right + [m])) == Some(W.Apply(s, m))
  {
    assert pre + (right + [m]) == (pre + right) + [m];
    assert ((pre + right) + [m])[..|pre + right|] == pre + right;
  }

  lemma LoopAppend(d: ProcessDAG, active: set<Name>, left: seq<S.Label>, s: S.Loop, m: S.Label)
    requires S.Exec(d, active, left) == Some(s) && S.Enabled(d, s, m)
    ensures S.Exec(d, active, left + [m]) == Some(S.Apply(d, s, m))
  {
    assert (left + [m])[..|left|] == left;
  }

  /** What a step is for the loop, and what it is for the services. */
  function LeftOf(l: Label): seq<S.Label> {
    match l case Loop(m) => [m] case Start(_) => [S.Edge] case Post(n) => [S.Post(n)] case Beside(_) => []
  }

  function RightOf(d: ProcessDAG, b: Both, l: Label): seq<W.Label>
    requires Enabled(d, b, l)
  {
    match l
    case Loop(_) => []
    case Start(k) => [W.Shuts(k, W.KillTask(Target(d, b.loop)))]
    case Post(n) => [W.Shuts(b.tasks[n], W.KillPost)]
    case Beside(m) => [m]
  }

  lemma ProjectStep(d: ProcessDAG, active: set<Name>, pre: seq<W.Label>, left: seq<S.Label>, right: seq<W.Label>,
      b: Both, l: Label)
    requires S.Exec(d, active, left) == Some(b.loop) && W.Exec(pre + right) == Some(b.sys) && Enabled(d, b, l)
    ensures S.Exec(d, active, left + LeftOf(l)) == Some(Apply(d, b, l).loop)
    ensures W.Exec(pre + (right + RightOf(d, b, l))) == Some(Apply(d, b, l).sys)
  {
    hide S.Exec, W.Exec, S.Apply, W.Apply, S.Enabled, W.Enabled;
    var x, y := LeftOf(l), RightOf(d, b, l);
    if x == [] { assert left + x == left; } else { LoopAppend(d, active, left, b.loop, x[0]); }
    if y == [] { assert right + y == right; } else { WatchAppend(pre, right, b.sys, y[0]); }
  }

  lemma {:induction false} Project(d: ProcessDAG, pre: seq<W.Label>, ls: seq<Label>)
      returns (left: seq<S.Label>, right: seq<W.Label>)
    requires W.Exec(pre).Some? && Exec(d, W.Exec(pre).value, ls).Some?
    ensures var s := W.Exec(pre).value; var b := Exec(d, s, ls).value;
            S.Exec(d, Snapshot(s), left) == Some(b.loop) && W.Exec(pre + right) == Some(b.sys)
    decreases |ls|
  {
    var s := W.Exec(pre).value;
    hide W.Exec, Snapshot, Enabled, Apply;
    if ls == [] {
      left, right := [], [];
      assert pre + right == pre;
    } else {
      var init, l := ls[..|ls| - 1], ls[|ls| - 1];
      left, right := Project(d, pre, init);
      var b := Exec(d, s, init).value;
      ProjectStep(d, Snapshot(s), pre, left, right, b, l);
      left, right := left + LeftOf(l), right + RightOf(d, b, l);
    }
  }

  // ---------------------------------------------------------------- the link between the two

  /** The instance `i` a name had at the snapshot, against the kill task for the name: it has not been
      stopped yet, was forgotten, or is what the task stopped. */
  ghost predicate Met(s: W.Sys, n: Name, i: W.Id, t: W.Kill) {
    && i in s.svc && s.svc[i].name == n && t.name == n
    && (t.pc.ToStop? || W.Remove(i) in s.hist || t.stopped == Some(i))
  }

  /** Each started kill task is in flight for the loop exactly until it has posted. */
  ghost predicate Linked(b: Both) {
    && b.tasks.Keys == Elems(b.loop.killed)
    && (forall n :: n in b.tasks ==> b.tasks[n] in b.sys.kills)
    && (forall n, m :: n in b.tasks && m in b.tasks && b.tasks[n] == b.tasks[m] ==> n == m)
    && (forall n :: n in b.tasks ==> (b.sys.kills[b.tasks[n]].pc.Posted? <==> n !in b.loop.inflight))
  }

  ghost function InstanceAt(s0: W.Sys, n: Name): W.Id
    requires n in Snapshot(s0)
  {
    s0.table[n]
  }

  lemma LoopKeeps(d: ProcessDAG, s: S.Loop, m: S.Label)
    requires S.Enabled(d, s, m) && !m.Post? && (m.Edge? ==> !StartsTask(d, s))
    ensures S.Apply(d, s, m).killed == s.killed && S.Apply(d, s, m).inflight == s.inflight
  {
  }

  lemma LoopStarts(d: ProcessDAG, s: S.Loop)
    requires StartsTask(d, s)
    ensures var n, s' := Target(d, s), S.Apply(d, s, S.Edge);
            s'.killed == s.killed + [n] && s'.inflight == s.inflight + {n}
  {
  }

  lemma StartElems(killed: seq<Name>, n: Name)
    ensures Elems(killed + [n]) == Elems(killed) + {n}
  {
  }

  lemma LinkStart(d: ProcessDAG, b: Both, k: W.Kid)
    requires Linked(b) && Enabled(d, b, Start(k)) && Target(d, b.loop) !in b.loop.killed
    ensures Linked(Apply(d, b, Start(k)))
  {
    var n := Target(d, b.loop);
    LoopStarts(d, b.loop);
    StartElems(b.loop.killed, n);
    hide S.Apply, S.Enabled;
    assert n !in Elems(b.loop.killed);
  }

  /** A step beside the loop posts none of its tasks. */
  lemma BesideKeeps(b: Both, m: W.Label, n: Name)
    requires Linked(b) && W.Enabled(b.sys, m) && n in b.tasks && !(m.Shuts? && m.d.KillPost? && m.k in b.tasks.Values)
    ensures var k, s' := b.tasks[n], W.Apply(b.sys, m);
            k in s'.kills && s'.kills[k].name == b.sys.kills[k].name
            && (s'.kills[k].pc.Posted? <==> b.sys.kills[k].pc.Posted?)
  {
    var k := b.tasks[n];
    assert k in b.tasks.Values;
    Kills.KillStays(b.sys, m, k);
    Kills.KillsAfter(b.sys, m, k);
    hide W.Apply, W.Enabled;
  }

  lemma LinkPost(d: ProcessDAG, b: Both, n: Name)
    requires Linked(b) && Enabled(d, b, Post(n))
    ensures Linked(Apply(d, b, Post(n)))
  {
  }

  lemma LinkBeside(d: ProcessDAG, b: Both, m: W.Label)
    requires Linked(b) && Enabled(d, b, Beside(m))
    ensures Linked(Apply(d, b, Beside(m)))
  {
    forall n | n in b.tasks
      ensures b.tasks[n] in W.Apply(b.sys, m).kills
      ensures W.Apply(b.sys, m).kills[b.tasks[n]].pc.Posted? <==> b.sys.kills[b.tasks[n]].pc.Posted?
    {
      BesideKeeps(b, m, n);
    }
    hide W.Apply, W.Enabled;
  }

  lemma LinkStep(d: ProcessDAG, b: Both, l: Label)
    requires Linked(b) && Enabled(d, b, l) && Elems(b.loop.killed) !! b.loop.channels
    ensures Linked(Apply(d, b, l))
  {
    match l
    case Loop(m) => LoopKeeps(d, b.loop, m);
    case Start(k) =>
      assert Target(d, b.loop) !in Elems(b.loop.killed);
      LinkStart(d, b, k);
    case Post(n) => LinkPost(d, b, n);
    case Beside(m) => LinkBeside(d, b, m);
  }

  lemma {:induction false} RunLinked(t: AfterTable, d: ProcessDAG, pre: seq<W.Label>, ls: seq<Label>)
    requires WellNamed(t) && IsDag(t, d) && W.Exec(pre).Some? && Exec(d, W.Exec(pre).value, ls).Some?
    ensures Linked(Exec(d, W.Exec(pre).value, ls).value)
    decreases |ls|
  {
    var s := W.Exec(pre).value;
    hide W.Exec, Snapshot, Enabled, Apply, WellNamed, IsDag;
    if ls == [] {
      assert Elems<Name>([]) == {};
    } else {
      var init, l := ls[..|ls| - 1], ls[|ls| - 1];
      RunLinked(t, d, pre, init);
      var left, right := Project(d, pre, init);
      S.RunInv(t, d, Snapshot(s), left);
      hide Linked;
      LinkStep(d, Exec(d, s, init).value, l);
    }
  }

  // ---------------------------------------------------------------- the instances of the snapshot

  lemma MetStop(s: W.Sys, n: Name, i: W.Id, k: W.Kid)
    requires W.CanShut(s, k, W.KillStop) && i in s.svc && s.svc[i].name == n && s.kills[k].name == n
    requires Trace.Listed(s.table, s.svc, i) || W.Remove(i) in s.hist
    ensures W.Remove(i) in s.hist || W.KillTo(s, k, W.KillStop).stopped == Some(i)
  {
  }

  lemma RemoveStays(h: seq<W.Event>, h': seq<W.Event>, i: W.Id)
    requires h <= h' && W.Remove(i) in h
    ensures W.Remove(i) in h'
  {
    Trace.NameMono(h, h', "");
  }

  lemma MetStep(s: W.Sys, l: W.Label, n: Name, i: W.Id, k: W.Kid)
    requires k in s.kills && Met(s, n, i, s.kills[k]) && W.Enabled(s, l)
    requires Departures.Accounted(s.table, s.svc, s.hist)
    ensures k in W.Apply(s, l).kills && Met(W.Apply(s, l), n, i, W.Apply(s, l).kills[k])
  {
    var s' := W.Apply(s, l);
    Supervision.FramedStep(s, l);
    Departures.HistGrows(s, l);
    Kills.KillStays(s, l, k);
    Kills.KillsAfter(s, l, k);
    if l == W.Shuts(k, W.KillStop) {
      Kills.ShutApplies(s, k, W.KillStop);
      MetStop(s, n, i, k);
    }
    hide W.Apply, W.Enabled, Departures.Accounted;
    if W.Remove(i) in s.hist { RemoveStays(s.hist, s'.hist, i); }
  }

  /** The instances of the snapshot are still there, and their kill tasks have met them. */
  ghost predicate AllMet(s0: W.Sys, b: Both) {
    && (forall n :: n in Snapshot(s0) ==> InstanceAt(s0, n) in b.sys.svc && b.sys.svc[InstanceAt(s0, n)].name == n)
    && (forall n :: n in b.tasks && n in Snapshot(s0) ==>
          b.tasks[n] in b.sys.kills && Met(b.sys, n, InstanceAt(s0, n), b.sys.kills[b.tasks[n]]))
  }

  /** A step of the services alone. */
  lemma AllMetStep(s0: W.Sys, b: Both, l: W.Label)
    requires AllMet(s0, b) && W.Enabled(b.sys, l) && Departures.Accounted(b.sys.table, b.sys.svc, b.sys.hist)
    ensures AllMet(s0, b.(sys := W.Apply(b.sys, l)))
  {
    hide W.Apply, W.Enabled, Departures.Accounted, Met, Snapshot;
    Supervision.FramedStep(b.sys, l);
    forall n | n in b.tasks && n in Snapshot(s0)
      ensures b.tasks[n] in W.Apply(b.sys, l).kills
      ensures Met(W.Apply(b.sys, l), n, InstanceAt(s0, n), W.Apply(b.sys, l).kills[b.tasks[n]])
    {
      MetStep(b.sys, l, n, InstanceAt(s0, n), b.tasks[n]);
    }
  }

  lemma AllMetNew(s0: W.Sys, b: Both, n: Name, k: W.Kid)
    requires AllMet(s0, b) && k in b.sys.kills && b.sys.kills[k] == W.Kill(n, W.ToStop, None, 0)
    ensures AllMet(s0, b.(tasks := b.tasks[n := k]))
  {
    hide Snapshot;
  }

  lemma MetAfter(d: ProcessDAG, s0: W.Sys, b: Both, l: Label)
    requires AllMet(s0, b) && Enabled(d, b, l) && Departures.Accounted(b.sys.table, b.sys.svc, b.sys.hist)
    ensures AllMet(s0, Apply(d, b, l))
  {
    hide Departures.Accounted, S.Apply, S.Enabled, W.Enabled, Snapshot, Met;
    match l
    case Loop(m) =>
    case Start(k) =>
      var start := W.Shuts(k, W.KillTask(Target(d, b.loop)));
      AllMetStep(s0, b, start);
      AllMetNew(s0, b.(sys := W.Apply(b.sys, start)), Target(d, b.loop), k);
    case Post(n) => AllMetStep(s0, b, W.Shuts(b.tasks[n], W.KillPost));
    case Beside(m) => AllMetStep(s0, b, m);
  }

  lemma SnapshotMet(d: ProcessDAG, pre: seq<W.Label>)
    requires W.Exec(pre).Some?
    ensures AllMet(W.Exec(pre).value, Init(d, Snapshot(W.Exec(pre).value), W.Exec(pre).value))
  {
    WatchRuns.RunInv(pre);
  }

  lemma {:induction false} RunMet(d: ProcessDAG, pre: seq<W.Label>, ls: seq<Label>)
    requires W.Exec(pre).Some? && Exec(d, W.Exec(pre).value, ls).Some?
    ensures AllMet(W.Exec(pre).value, Exec(d, W.Exec(pre).value, ls).value)
    decreases |ls|
  {
    var s := W.Exec(pre).value;
    hide W.Exec, Snapshot, Enabled, Apply, AllMet;
    if ls == [] {
      SnapshotMet(d, pre);
    } else {
      var init, l := ls[..|ls| - 1], ls[|ls| - 1];
      RunMet(d, pre, init);
      var left, right := Project(d, pre, init);
      Departures.RunAccounted(pre + right);
      MetAfter(d, s, Exec(d, s, init).value, l);
    }
  }

  // ---------------------------------------------------------------- end to end

  /** `i` was stopped: unless a `start` raised it after position `at`, it is Down, and its process is gone
      or was sent SIGKILL. */
  ghost predicate Settled(s: W.Sys, i: W.Id, at: nat) {
    && i in s.svc
    && (Kills.Unraised(s.hist, i, at) ==>
          s.svc[i].v.target.Down? && (s.svc[i].v.pid == 0 || W.Sigkill(i, s.svc[i].v.pid) in s.hist))
  }

  lemma MetIsSettled(ls: seq<W.Label>, n: Name, i: W.Id, k: W.Kid)
    requires W.Exec(ls).Some? && k in W.Exec(ls).value.kills
    requires Met(W.Exec(ls).value, n, i, W.Exec(ls).value.kills[k]) && W.Exec(ls).value.kills[k].pc.Posted?
    ensures Settled(W.Exec(ls).value, i, W.Exec(ls).value.kills[k].at)
  {
    var s := W.Exec(ls).value;
    hide W.Exec;
    if W.Remove(i) in s.hist {
      var a :| 0 <= a < |s.hist| && s.hist[a] == W.Remove(i);
      WatchRuns.ForgetIsFinal(ls, i, a);
    } else {
      Departures.ListedOrForgotten(ls, i);
      if Kills.Unraised(s.hist, i, s.kills[k].at) { Kills.PostedMeansStopped(ls, k, i); }
    }
  }

  /** What came out of the death channel is not in flight. */
  lemma OutOfFlight(received: seq<Name>, queue: seq<Name>, inflight: set<Name>, released: set<Name>, n: Name)
    requires S.ReleasedOnce(received, queue, inflight, released) && n in received
    ensures n !in inflight
  {
    assert n in multiset(received);
    assert multiset(received)[n] + multiset(queue)[n] + multiset(inflight)[n] == multiset(released)[n] <= 1;
  }

  /** A service active at the snapshot that came out of the death channel has been settled. */
  lemma OutIsSettled(t: AfterTable, d: ProcessDAG, pre: seq<W.Label>, ls: seq<Label>, p: Name)
    requires WellNamed(t) && IsDag(t, d) && W.Exec(pre).Some? && Exec(d, W.Exec(pre).value, ls).Some?
    requires p in Exec(d, W.Exec(pre).value, ls).value.loop.received && p != DUMMY_ROOT
        && p in Snapshot(W.Exec(pre).value)
    ensures var s0 := W.Exec(pre).value; var b := Exec(d, s0, ls).value;
            && p in b.tasks && b.tasks[p] in b.sys.kills && b.sys.kills[b.tasks[p]].pc.Posted?
            && Settled(b.sys, InstanceAt(s0, p), b.sys.kills[b.tasks[p]].at)
  {
    var s0 := W.Exec(pre).value;
    var b := Exec(d, s0, ls).value;
    RunLinked(t, d, pre, ls);
    RunMet(d, pre, ls);
    var left, right := Project(d, pre, ls);
    KilledAreReceived(t, d, Snapshot(s0), left);
    S.RunInv(t, d, Snapshot(s0), left);
    hide Exec, W.Exec, S.Exec, Snapshot, WellNamed, IsDag, Met, Settled;
    assert p in Elems(b.loop.killed);
    OutOfFlight(b.loop.received, b.loop.queue, b.loop.inflight, S.Zero(b.loop.indegree), p);
    MetIsSettled(pre + right, p, InstanceAt(s0, p), b.tasks[p]);
  }

  /** Dependants stop first, really: from the moment the kill task of `n` is started, every service that
      lists `n` and was active at the snapshot has had a kill task, which has posted, and has been settled;
      and that holds whatever `start`, `stop`, `forget`, `monitor` and the watchers do meanwhile. */
  lemma DependantsStopFirst(t: AfterTable, d: ProcessDAG, pre: seq<W.Label>, ls: seq<Label>, n: Name, p: Name)
    requires WellNamed(t) && IsDag(t, d) && W.Exec(pre).Some? && Exec(d, W.Exec(pre).value, ls).Some?
    requires n in Exec(d, W.Exec(pre).value, ls).value.tasks && Lists(t, p, n) && p in Snapshot(W.Exec(pre).value)
    ensures var s0 := W.Exec(pre).value; var b := Exec(d, s0, ls).value;
            && p in b.tasks && b.tasks[p] in b.sys.kills && b.sys.kills[b.tasks[p]].pc.Posted?
            && Settled(b.sys, InstanceAt(s0, p), b.sys.kills[b.tasks[p]].at)
  {
    var s0 := W.Exec(pre).value;
    var b := Exec(d, s0, ls).value;
    RunLinked(t, d, pre, ls);
    var left, right := Project(d, pre, ls);
    ShutdownOrderSafety(t, d, Snapshot(s0), left);
    assert n in Elems(b.loop.killed);
    assert p != DUMMY_ROOT;
    hide Exec, W.Exec, S.Exec, Snapshot, WellNamed, IsDag, Settled;
    OutIsSettled(t, d, pre, ls, p);
  }

  /** And when the loop has got through, with every `after` name defined, every service of the table that
      was active at the snapshot has been settled. */
  lemma ShutdownSettlesAll(t: AfterTable, d: ProcessDAG, pre: seq<W.Label>, ls: seq<Label>, p: Name)
    requires WellNamed(t) && IsDag(t, d) && AllDefined(t) && W.Exec(pre).Some? && Exec(d, W.Exec(pre).value, ls).Some?
    requires Exec(d, W.Exec(pre).value, ls).value.loop.cur.Exited? && p in t && p in Snapshot(W.Exec(pre).value)
    ensures var s0 := W.Exec(pre).value; var b := Exec(d, s0, ls).value;
            && p in b.tasks && b.tasks[p] in b.sys.kills && b.sys.kills[b.tasks[p]].pc.Posted?
            && Settled(b.sys, InstanceAt(s0, p), b.sys.kills[b.tasks[p]].at)
  {
    var s0 := W.Exec(pre).value;
    var left, right := Project(d, pre, ls);
    ExitIsComplete(t, d, Snapshot(s0), left);
    assert p in Elems(Exec(d, s0, ls).value.loop.received);
    assert p != DUMMY_ROOT;
    hide Exec, W.Exec, S.Exec, Snapshot, WellNamed, IsDag, Settled;
    OutIsSettled(t, d, pre, ls, p);
  }

  // ---------------------------------------------------------------- who is in the snapshot, and progress

  /** In every run whose writes by name hit the instances they are meant for, the snapshot is exactly the
      services with a process on record, apart from those whose test could not be run. */
  lemma SnapshotIff(pre: seq<W.Label>, n: Name)
    requires W.Exec(pre).Some? && StateRelation.DisciplinedRun(pre)
    ensures var s := W.Exec(pre).value;
            n in Snapshot(s) <==>
              n in s.table && s.table[n] in s.svc && s.svc[s.table[n]].v.pid != 0
              && s.svc[s.table[n]].v.state != Service.TestFailure
  {
    StateRelation.LifecycleRelation(pre);
    hide W.Exec;
  }

  /** The next step of a kill task that has not posted. */
  lemma TaskCanMove(s: W.Sys, k: W.Kid) returns (d: W.Shutting)
    requires k in s.kills && !s.kills[k].pc.Posted?
    ensures W.Enabled(s, W.Shuts(k, d)) && (d.KillPost? <==> s.kills[k].pc.ToPost?)
  {
    match s.kills[k].pc
    case ToStop => d := W.KillStop;
    case ToWait => d := W.KillWaited;
    case ToCheck => d := W.KillStatus;
    case ToKill => d := W.KillSignal;
    case ToPost => d := W.KillPost;
  }

  /** A step of the loop or of one of its kill tasks. */
  predicate OfShutdown(b: Both, l: Label) {
    l.Loop? || l.Start? || l.Post? || (l.Beside? && l.w.Shuts? && l.w.k in b.tasks.Values)
  }

  lemma LoopMoves(d: ProcessDAG, b: Both, m: S.Label) returns (l: Label)
    requires S.Enabled(d, b.loop, m) && !m.Post? && b.sys.flag
    ensures Enabled(d, b, l) && OfShutdown(b, l)
  {
    if m.Edge? && StartsTask(d, b.loop) {
      var k := Limits.Fresh(b.sys.kills);
      l := Start(k);
    } else {
      l := Loop(m);
    }
  }

  lemma TaskMoves(d: ProcessDAG, b: Both, n: Name) returns (l: Label)
    requires Linked(b) && n in b.tasks && n in b.loop.inflight
    ensures Enabled(d, b, l) && OfShutdown(b, l)
  {
    var k := b.tasks[n];
    assert k in b.tasks.Values;
    var m := TaskCanMove(b.sys, k);
    l := if m.KillPost? then Post(n) else Beside(W.Shuts(k, m));
  }

  /** Without a cycle the whole shutdown is never stuck: until the loop exits, the loop or one of its kill
      tasks can take a step, whatever the services are doing. */
  lemma ShutdownCanMove(t: AfterTable, d: ProcessDAG, pre: seq<W.Label>, ls: seq<Label>)
    requires WellNamed(t) && IsDag(t, d) && Acyclic(t) && W.Exec(pre).Some? && Exec(d, W.Exec(pre).value, ls).Some?
    requires Exec(d, W.Exec(pre).value, ls).value.sys.flag
    requires !Exec(d, W.Exec(pre).value, ls).value.loop.cur.Exited?
    ensures var b := Exec(d, W.Exec(pre).value, ls).value;
            exists l :: Enabled(d, b, l) && OfShutdown(b, l)
  {
    var s0 := W.Exec(pre).value;
    var b := Exec(d, s0, ls).value;
    RunLinked(t, d, pre, ls);
    var left, right := Project(d, pre, ls);
    AcyclicProgress(t, d, Snapshot(s0), left);
    S.RunInv(t, d, Snapshot(s0), left);
    var m :| S.Enabled(d, b.loop, m);
    hide Exec, W.Exec, S.Exec, Snapshot, WellNamed, IsDag, Acyclic, Enabled;
    if m.Post? {
      var l := TaskMoves(d, b, m.task);
    } else {
      var l := LoopMoves(d, b, m);
    }
  }
}
