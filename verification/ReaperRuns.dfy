/** What the reaper guarantees over every run, and the loops of `wait_process` and `start` themselves. */
module ReaperRuns {
  import opened Basics
  import opened Service
  import opened Reaper

  /** `Child::wait` cannot fail: a child's channel is never dropped, and what it delivers is the status
      the child's own process died with, however pids are reused. */
  lemma WaitNeverFails(ls: seq<Label>, c: Cid)
    requires Exec(ls).Some? && c in Exec(ls).value.chans
    ensures var s := Exec(ls).value;
            !s.chans[c].Dropped? && (s.chans[c].Sent? ==> c in s.fate && s.fate[c] == s.chans[c].status)
  {
    RunInv(ls);
    assert ChanOk(Exec(ls).value, c);
  }

  lemma SentStep(s: Sys, l: Label, c: Cid)
    requires Inv(s) && Enabled(s, l) && c in s.chans && s.chans[c].Sent?
    ensures c in Apply(s, l).chans && Apply(s, l).chans[c] == s.chans[c]
  {
    match l
    case RunInsert => assert s.lock.pid !in s.table;
    case Dispatch => if s.pc.rest[0].pid in s.table { assert EntryOk(s, s.pc.rest[0].pid); }
    case _ =>
  }

  lemma ExecLast(ls: seq<Label>)
    requires Exec(ls).Some? && ls != []
    ensures Exec(ls[..|ls| - 1]).Some? && Enabled(Exec(ls[..|ls| - 1]).value, ls[|ls| - 1])
    ensures Exec(ls).value == Apply(Exec(ls[..|ls| - 1]).value, ls[|ls| - 1])
  {
  }

  /** One status a child: once sent it is there for good, and is not replaced. */
  lemma {:induction false} SentOnce(ls: seq<Label>, more: seq<Label>, c: Cid)
    requires Exec(ls).Some? && Exec(ls + more).Some? && c in Exec(ls).value.chans && Exec(ls).value.chans[c].Sent?
    ensures c in Exec(ls + more).value.chans && Exec(ls + more).value.chans[c] == Exec(ls).value.chans[c]
    decreases |more|
  {
    hide Exec, Apply, Enabled;
    if more == [] {
      assert ls + more == ls;
    } else {
      var init := more[..|more| - 1];
      assert (ls + more)[..|ls + more| - 1] == ls + init;
      assert (ls + more)[|ls + more| - 1] == more[|more| - 1];
      ExecLast(ls + more);
      SentOnce(ls, init, c);
      RunInv(ls + init);
      SentStep(Exec(ls + init).value, more[|more| - 1], c);
    }
  }

  /** Table keys are children that were spawned and not reaped, or whose status the reaper holds in hand
      with the lock; and an insert never finds a handler in its place. */
  lemma TableKeysAreUnreaped(ls: seq<Label>)
    requires Exec(ls).Some?
    ensures var s := Exec(ls).value;
            && (forall p :: p in s.table ==>
                  || (p in s.procs && s.procs[p].owner == Child(s.table[p]))
                  || (s.lock.ByReaper? && exists x :: x in Hand(s.pc) && x.pid == p))
            && (Enabled(s, RunInsert) ==> s.lock.pid !in s.table)
  {
    RunInv(ls);
    var s := Exec(ls).value;
    hide Exec;
    forall p | p in s.table
      ensures (p in s.procs && s.procs[p].owner == Child(s.table[p]))
          || (s.lock.ByReaper? && exists x :: x in Hand(s.pc) && x.pid == p)
    {
      assert EntryOk(s, p);
      if FirstFor(Hand(s.pc), p).Some? { FirstForIn(Hand(s.pc), p); }
    }
  }

  lemma {:induction false} FirstForIn(hand: seq<Exited>, p: Pid)
    requires FirstFor(hand, p).Some?
    ensures exists x :: x in hand && x.pid == p
  {
    if hand[0].pid == p {
      assert hand[0] in hand;
    } else {
      FirstForIn(hand[1..], p);
      var x :| x in hand[1..] && x.pid == p;
      assert x in hand;
    }
  }

  /** A dead child that has not been reaped is not forgotten: SIGCHLD is pending or the reaper is on its
      way; and when the reaper is idle with nothing pending, every child that died was sent its status. */
  lemma DeathsAreDelivered(ls: seq<Label>)
    requires Exec(ls).Some?
    ensures var s := Exec(ls).value;
            && (forall p :: Zombie(s.procs, p) ==> s.sigchld || s.pc.Woken? || s.pc.Collecting?)
            && (s.pc.Idle? && !s.sigchld ==> forall c :: c in s.fate ==> c in s.chans && s.chans[c] == Sent(s.fate[c]))
  {
    RunInv(ls);
    var s := Exec(ls).value;
    hide Exec;
    if s.pc.Idle? && !s.sigchld {
      assert forall p :: !Zombie(s.procs, p);
      hide Inv, Zombie;
      forall c | c in s.fate ensures c in s.chans && s.chans[c] == Sent(s.fate[c]) { Delivered(s, c); }
    }
  }

  lemma InsertingAlive(s: Sys)
    requires Inv(s) && s.lock.Inserting? && forall p :: !Zombie(s.procs, p)
    ensures s.lock.c !in s.fate
  {
    assert ProcOk(s, s.lock.pid) && !Zombie(s.procs, s.lock.pid);
  }

  lemma EntryAlive(s: Sys, p: Pid)
    requires Inv(s) && s.pc.Idle? && p in s.table && forall p :: !Zombie(s.procs, p)
    ensures s.table[p] !in s.fate
  {
    assert EntryOk(s, p);
    assert ProcOk(s, p) && !Zombie(s.procs, p);
  }

  lemma Delivered(s: Sys, c: Cid)
    requires Inv(s) && s.pc.Idle? && c in s.fate && forall p :: !Zombie(s.procs, p)
    ensures c in s.chans && s.chans[c] == Sent(s.fate[c])
  {
    if c !in s.chans {
      InsertingAlive(s);
    } else {
      assert ChanOk(s, c);
      if s.chans[c].Pending? {
        var p :| p in s.table && s.table[p] == c;
        EntryAlive(s, p);
      }
    }
  }

  /** A step of the reaper, or of a `run` that has the lock. */
  predicate Inside(l: Label) {
    !l.Adopt? && !l.Die? && !l.RunLock?
  }

  lemma ReaperMoves(s: Sys)
    requires s.pc.Idle? ==> s.sigchld
    requires s.pc.Woken? ==> s.lock.Free?
    ensures exists l :: Enabled(s, l) && Inside(l)
  {
    match s.pc
    case Idle => assert Enabled(s, Wake) && Inside(Wake);
    case Woken => assert Enabled(s, TakeLock) && Inside(TakeLock);
    case Collecting(_) => CollectingMoves(s);
    case Dispatching(rest) =>
      if rest == [] {
        assert Enabled(s, Finish) && Inside(Finish);
      } else {
        assert Enabled(s, Dispatch) && Inside(Dispatch);
      }
  }

  lemma CollectingMoves(s: Sys)
    requires s.pc.Collecting?
    ensures exists l :: Enabled(s, l) && Inside(l)
  {
    if p :| Zombie(s.procs, p) {
      assert Enabled(s, Reap(p)) && Inside(Reap(p));
    } else {
      assert Enabled(s, NoMore) && Inside(NoMore);
    }
  }

  /** And until then somebody can move: the reaper, or the `run` that holds the lock it needs. */
  lemma DeliveryIsPossible(ls: seq<Label>, c: Cid)
    requires Exec(ls).Some?
    requires c in Exec(ls).value.fate && !(c in Exec(ls).value.chans && Exec(ls).value.chans[c].Sent?)
    ensures exists l :: Enabled(Exec(ls).value, l) && Inside(l)
  {
    DeathsAreDelivered(ls);
    RunInv(ls);
    var s := Exec(ls).value;
    hide Exec, Zombie, Enabled, Inv;
    match s.lock
    case Runner => RunnerMoves(s);
    case Inserting(_, _) => RunnerMoves(s);
    case _ =>
      LockFree(s);
      ReaperMoves(s);
  }

  lemma RunnerMoves(s: Sys)
    requires s.lock.Runner? || s.lock.Inserting?
    ensures exists l :: Enabled(s, l) && Inside(l)
  {
    if s.lock.Runner? {
      assert Enabled(s, RunFail) && Inside(RunFail);
    } else {
      assert Enabled(s, RunInsert) && Inside(RunInsert);
    }
  }

  lemma LockFree(s: Sys)
    requires Inv(s) && !s.lock.Runner? && !s.lock.Inserting?
    ensures s.pc.Woken? ==> s.lock.Free?
  {
  }

  // ---------------------------------------------------------------- the loops

  datatype WaitResult = Got(x: Exited) | StillAlive | NoChild

  /** Some live processes may have died since. */
  ghost predicate Aged(was: map<Pid, Proc>, now: map<Pid, Proc>) {
    && now.Keys == was.Keys
    && forall p :: p in was ==> now[p].owner == was[p].owner && (Zombie(was, p) ==> now[p] == was[p])
  }

  class Kernel {
    var procs: map<Pid, Proc>

    constructor ()
      ensures procs == map[]
    {
      procs := map[];
    }

    /** Any processes die, with any statuses. */
    method Deaths()
      modifies this
      ensures Aged(old(procs), procs)
    {
      var todo := procs.Keys;
      while todo != {}
        invariant todo <= old(procs).Keys && Aged(old(procs), procs)
      {
        var p :| p in todo;
        todo := todo - {p};
        if * {
          var status: WaitStatus := *;
          if procs[p].status.None? { procs := procs[p := Proc(procs[p].owner, Some(status))]; }
        }
      }
    }

    /** `waitpid(None, WNOHANG)`: any zombie, also one that has just become one. */
    method WaitPid() returns (r: WaitResult, ghost before: map<Pid, Proc>)
      modifies this
      ensures Aged(old(procs), before)
      ensures r.Got? ==> r.x.pid in before && before[r.x.pid].status == Some(r.x.status) && procs == before - {r.x.pid}
      ensures !r.Got? ==> procs == before && forall p :: !Zombie(procs, p)
    {
      Deaths();
      before := procs;
      if p :| p in procs && procs[p].status.Some? {
        r := Got(Exited(p, procs[p].status.value));
        procs := procs - {p};
      } else {
        r := if procs == map[] then NoChild else StillAlive;
      }
    }
  }

  /** What a round of reaping has made of the processes `was`: each is still there as it was, alive or
      dead since, or was reaped once, with the status it had if it was dead already. */
  ghost predicate Reaped(was: map<Pid, Proc>, now: map<Pid, Proc>, statuses: seq<Exited>) {
    && (forall p :: p in now ==> p in was && now[p].owner == was[p].owner && (Zombie(was, p) ==> now[p] == was[p]))
    && (forall i :: 0 <= i < |statuses| ==> Took(was, now, statuses[i]))
    && (forall i, j :: 0 <= i < j < |statuses| ==> statuses[i].pid != statuses[j].pid)
    && (forall p :: p in was && p !in now ==> exists i :: 0 <= i < |statuses| && statuses[i].pid == p)
  }

  predicate Took(was: map<Pid, Proc>, now: map<Pid, Proc>, x: Exited) {
    x.pid in was && x.pid !in now && (Zombie(was, x.pid) ==> was[x.pid].status == Some(x.status))
  }

  lemma ReapOne(was: map<Pid, Proc>, now: map<Pid, Proc>, before: map<Pid, Proc>, statuses: seq<Exited>, x: Exited)
    requires Reaped(was, now, statuses) && Aged(now, before)
    requires x.pid in before && before[x.pid].status == Some(x.status)
    ensures Reaped(was, before - {x.pid}, statuses + [x])
  {
    var more, after := statuses + [x], before - {x.pid};
    forall i | 0 <= i < |more| ensures Took(was, after, more[i]) {
      assert i < |statuses| ==> Took(was, now, statuses[i]);
    }
    forall i, j | 0 <= i < j < |more| ensures more[i].pid != more[j].pid {
      assert Took(was, now, statuses[i]);
    }
    forall p | p in was && p !in after ensures exists i :: 0 <= i < |more| && more[i].pid == p {
      if p == x.pid {
        assert more[|statuses|].pid == p;
      } else {
        var i :| 0 <= i < |statuses| && statuses[i].pid == p;
        assert more[i].pid == p;
      }
    }
  }

  /** `wait_process`, with processes dying all the while: it leaves no zombie, reaps each process at most
      once, and leaves every live one alone. */
  method WaitProcess(k: Kernel) returns (statuses: seq<Exited>)
    modifies k
    ensures Reaped(old(k.procs), k.procs, statuses) && forall p :: !Zombie(k.procs, p)
  {
    statuses := [];
    while true
      invariant Reaped(old(k.procs), k.procs, statuses)
      decreases |k.procs|
    {
      ghost var now := k.procs;
      var r, before := k.WaitPid();
      if !r.Got? {
        AgedReaped(old(k.procs), now, before, statuses);
        break;
      }
      SmallerMap(now, before, r.x.pid);
      ReapOne(old(k.procs), now, before, statuses, r.x);
      statuses := statuses + [r.x];
    }
  }

  lemma AgedReaped(was: map<Pid, Proc>, now: map<Pid, Proc>, before: map<Pid, Proc>, statuses: seq<Exited>)
    requires Reaped(was, now, statuses) && Aged(now, before)
    ensures Reaped(was, before, statuses)
  {
    forall i | 0 <= i < |statuses| ensures Took(was, before, statuses[i]) {
      assert Took(was, now, statuses[i]);
    }
  }

  lemma SmallerMap(now: map<Pid, Proc>, before: map<Pid, Proc>, p: Pid)
    requires before.Keys == now.Keys && p in before
    ensures |before - {p}| < |now|
  {
    assert (before - {p}).Keys == now.Keys - {p};
    assert |(before - {p}).Keys| < |now.Keys|;
  }

  /** All the statuses of one round, looked up and sent in order. */
  function DeliverAll(table: map<Pid, Cid>, chans: map<Cid, Chan>, xs: seq<Exited>): (map<Pid, Cid>, map<Cid, Chan>) {
    if xs == [] then (table, chans) else
    var t := Deliver(table, chans, xs[0]);
    DeliverAll(t.0, t.1, xs[1..])
  }

  class ProcessManager {
    var table: map<Pid, Cid>
    var chans: map<Cid, Chan>

    constructor ()
      ensures table == map[] && chans == map[]
    {
      table, chans := map[], map[];
    }

    /** The end of `run`, still under the lock: register the child. */
    method Register(pid: Pid, c: Cid)
      modifies this
      ensures (table, chans) == Insert(old(table), old(chans), pid, c)
    {
      if pid in table { chans := chans[table[pid] := Dropped]; }
      table := table[pid := c];
      chans := chans[c := Pending];
    }

    /** The reaper's `for` loop over the statuses it has collected. */
    method Drain(exited: seq<Exited>)
      modifies this
      ensures (table, chans) == DeliverAll(old(table), old(chans), exited)
    {
      for i := 0 to |exited|
        invariant DeliverAll(table, chans, exited[i..]) == DeliverAll(old(table), old(chans), exited)
      {
        var x := exited[i];
        assert exited[i..][1..] == exited[i + 1..];
        if x.pid in table {
          chans := chans[table[x.pid] := Sent(x.status)];
          table := table - {x.pid};
        }
      }
      assert exited[|exited|..] == [];
    }
  }

  /** Taking the reaper's dispatch steps one by one, until none is left, has the loop's effect. */
  function DispatchAll(s: Sys): Sys
    requires s.pc.Dispatching?
    decreases |s.pc.rest|
  {
    if s.pc.rest == [] then s else DispatchAll(Apply(s, Dispatch))
  }

  lemma {:induction false} DrainIsDispatch(s: Sys)
    requires s.pc.Dispatching?
    ensures DispatchAll(s) == s.(table := DeliverAll(s.table, s.chans, s.pc.rest).0,
                                 chans := DeliverAll(s.table, s.chans, s.pc.rest).1, pc := Dispatching([]))
    decreases |s.pc.rest|
  {
    if s.pc.rest == [] {
    } else {
      DrainIsDispatch(Apply(s, Dispatch));
    }
  }

  /** In a reachable dispatch round every status that has a table entry goes to the child it belongs to. */
  lemma DrainSendsOwnStatus(ls: seq<Label>, c: Cid)
    requires Exec(ls).Some? && Exec(ls).value.pc.Dispatching?
    requires var s := Exec(ls).value; c in DispatchAll(s).chans && DispatchAll(s).chans[c].Sent?
    ensures var s := Exec(ls).value; c in s.fate && DispatchAll(s).chans[c] == Sent(s.fate[c])
  {
    RunInv(ls);
    DispatchAllInv(Exec(ls).value);
    assert ChanOk(DispatchAll(Exec(ls).value), c);
  }

  lemma {:induction false} DispatchAllInv(s: Sys)
    requires Inv(s) && s.pc.Dispatching?
    ensures Inv(DispatchAll(s)) && DispatchAll(s).fate == s.fate
    decreases |s.pc.rest|
  {
    hide Inv;
    if s.pc.rest == [] {
    } else {
      InvStep(s, Dispatch);
      DispatchAllInv(Apply(s, Dispatch));
    }
  }
}
