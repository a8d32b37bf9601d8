/** The process table and the reaper of src/manager/mod.rs, beside a kernel that reuses pids. */
module Reaper {
  import opened Basics
  import opened Service

  type Cid = nat // a child handed out by `ProcessManager::run`

  /** A process is a child `run` spawned, or one the kernel gave to process 1. */
  datatype Owner = Child(c: Cid) | Adopted

  /** `status` is set once the process is a zombie. */
  datatype Proc = Proc(owner: Owner, status: Option<WaitStatus>)

  /** The oneshot channel of a child: its sender waits in the table, was used, or was dropped unused. */
  datatype Chan = Pending | Sent(status: WaitStatus) | Dropped

  datatype Exited = Exited(pid: Pid, status: WaitStatus)

  datatype ReaperPc = Idle | Woken | Collecting(got: seq<Exited>) | Dispatching(rest: seq<Exited>)

  /** Who holds the table lock; `run` holds it from before the spawn until after the insert. */
  datatype Lock = Free | Runner | Inserting(pid: Pid, c: Cid) | ByReaper

  /** `fate` records the status each child's own process died with, `used` the children ever spawned. */
  datatype Sys = Sys(
    procs: map<Pid, Proc>,
    sigchld: bool,
    table: map<Pid, Cid>,
    chans: map<Cid, Chan>,
    lock: Lock,
    pc: ReaperPc,
    fate: map<Cid, WaitStatus>,
    used: set<Cid>)

  datatype Label =
    | Adopt(p: Pid)
    | Die(p: Pid, status: WaitStatus)
    | RunLock
    | RunFail
    | RunSpawn(p: Pid, c: Cid)
    | RunInsert
    | Wake
    | TakeLock
    | Reap(p: Pid)
    | NoMore
    | Dispatch
    | Finish

  function Init(): Sys {
    Sys(map[], false, map[], map[], Free, Idle, map[], {})
  }

  predicate Zombie(procs: map<Pid, Proc>, p: Pid) {
    p in procs && procs[p].status.Some?
  }

  predicate Enabled(s: Sys, l: Label) {
    match l
    case Adopt(p) => p !in s.procs && p != 0
    case Die(p, _) => p in s.procs && s.procs[p].status.None?
    case RunLock => s.lock.Free?
    case RunFail => s.lock.Runner?
    case RunSpawn(p, c) => s.lock.Runner? && p !in s.procs && p != 0 && c !in s.used
    case RunInsert => s.lock.Inserting?
    case Wake => s.pc.Idle? && s.sigchld
    case TakeLock => s.pc.Woken? && s.lock.Free?
    case Reap(p) => s.pc.Collecting? && Zombie(s.procs, p)
    case NoMore => s.pc.Collecting? && forall p :: p in s.procs ==> !Zombie(s.procs, p)
    case Dispatch => s.pc.Dispatching? && s.pc.rest != []
    case Finish => s.pc.Dispatching? && s.pc.rest == []
  }

  /** `table.insert(pid, tx)`: an entry in the way loses its sender. */
  function Insert(table: map<Pid, Cid>, chans: map<Cid, Chan>, p: Pid, c: Cid): (map<Pid, Cid>, map<Cid, Chan>) {
    (table[p := c], (if p in table then chans[table[p] := Dropped] else chans)[c := Pending])
  }

  /** `table.remove(&pid)` and the send, for one status. */
  function Deliver(table: map<Pid, Cid>, chans: map<Cid, Chan>, x: Exited): (map<Pid, Cid>, map<Cid, Chan>) {
    if x.pid in table then (table - {x.pid}, chans[table[x.pid] := Sent(x.status)]) else (table, chans)
  }

  function Apply(s: Sys, l: Label): Sys
    requires Enabled(s, l)
  {
    match l
    case Adopt(p) => s.(procs := s.procs[p := Proc(Adopted, None)])
    case Die(p, st) =>
      var o := s.procs[p].owner;
      s.(procs := s.procs[p := Proc(o, Some(st))], sigchld := true,
        fate := if o.Child? then s.fate[o.c := st] else s.fate)
    case RunLock => s.(lock := Runner)
    case RunFail => s.(lock := Free)
    case RunSpawn(p, c) => s.(procs := s.procs[p := Proc(Child(c), None)], lock := Inserting(p, c),
      used := s.used + {c})
    case RunInsert =>
      var t := Insert(s.table, s.chans, s.lock.pid, s.lock.c);
      s.(table := t.0, chans := t.1, lock := Free)
    case Wake => s.(sigchld := false, pc := Woken)
    case TakeLock => s.(lock := ByReaper, pc := Collecting([]))
    case Reap(p) => s.(procs := s.procs - {p}, pc := Collecting(s.pc.got + [Exited(p, s.procs[p].status.value)]))
    case NoMore => s.(pc := Dispatching(s.pc.got))
    case Dispatch =>
      var t := Deliver(s.table, s.chans, s.pc.rest[0]);
      s.(table := t.0, chans := t.1, pc := Dispatching(s.pc.rest[1..]))
    case Finish => s.(lock := Free, pc := Idle)
  }

  function Exec(ls: seq<Label>): Option<Sys>
    decreases |ls|
  {
    if ls == [] then Some(Init()) else
    match Exec(ls[..|ls| - 1])
    case None => None
    case Some(s) => if Enabled(s, ls[|ls| - 1]) then Some(Apply(s, ls[|ls| - 1])) else None
  }

  // ---------------------------------------------------------------- the invariant

  /** The statuses the reaper has taken from the kernel and not looked up yet, oldest first. */
  function Hand(pc: ReaperPc): seq<Exited> {
    match pc case Collecting(g) => g case Dispatching(r) => r case _ => []
  }

  /** The oldest of them for `p`. */
  function FirstFor(hand: seq<Exited>, p: Pid): Option<WaitStatus> {
    if hand == [] then None else if hand[0].pid == p then Some(hand[0].status) else FirstFor(hand[1..], p)
  }

  lemma {:induction false} FirstForSnoc(hand: seq<Exited>, x: Exited, p: Pid)
    ensures FirstFor(hand + [x], p) ==
              if FirstFor(hand, p).Some? then FirstFor(hand, p) else if x.pid == p then Some(x.status) else None
  {
    if hand == [] {
    } else {
      assert (hand + [x])[1..] == hand[1..] + [x];
      FirstForSnoc(hand[1..], x, p);
    }
  }

  /** The process of a table entry: still with the kernel, or its status is next in hand for the pid. */
  ghost predicate EntryOk(s: Sys, p: Pid)
    requires p in s.table
  {
    var c := s.table[p];
    && c in s.used && c in s.chans && s.chans[c].Pending?
    && (|| (p in s.procs && s.procs[p].owner == Child(c) && FirstFor(Hand(s.pc), p).None?)
        || (FirstFor(Hand(s.pc), p).Some? && c in s.fate && s.fate[c] == FirstFor(Hand(s.pc), p).value
            && (p in s.procs ==> s.procs[p].owner.Adopted?)))
  }

  ghost predicate ProcOk(s: Sys, p: Pid)
    requires p in s.procs
  {
    s.procs[p].owner.Child? ==>
      var c := s.procs[p].owner.c;
      && c in s.used
      && ((p in s.table && s.table[p] == c) || s.lock == Inserting(p, c))
      && (if s.procs[p].status.Some? then c in s.fate && s.fate[c] == s.procs[p].status.value else c !in s.fate)
  }

  ghost predicate ChanOk(s: Sys, c: Cid)
    requires c in s.chans
  {
    && c in s.used && !s.chans[c].Dropped?
    && (s.chans[c].Sent? ==> c in s.fate && s.fate[c] == s.chans[c].status)
    && (s.chans[c].Pending? ==> exists p :: p in s.table && s.table[p] == c)
  }

  ghost predicate LockOk(s: Sys) {
    && (s.lock.ByReaper? <==> s.pc.Collecting? || s.pc.Dispatching?)
    && (s.lock.Inserting? ==>
          && s.lock.pid in s.procs && s.procs[s.lock.pid].owner == Child(s.lock.c)
          && s.lock.pid !in s.table && s.lock.c !in s.chans && s.lock.c in s.used)
  }

  ghost predicate Inv(s: Sys) {
    && LockOk(s)
    && (forall p :: p in s.table ==> EntryOk(s, p))
    && (forall p, q :: p in s.table && q in s.table && s.table[p] == s.table[q] ==> p == q)
    && (forall p :: p in s.procs ==> ProcOk(s, p))
    && (forall c :: c in s.chans ==> ChanOk(s, c))
    && (forall c :: c in s.fate ==> c in s.used)
    && (forall c :: c in s.used ==> c in s.chans || (s.lock.Inserting? && s.lock.c == c))
    && ((exists p :: Zombie(s.procs, p)) ==> s.sigchld || s.pc.Woken? || s.pc.Collecting?)
  }

  // ---------------------------------------------------------------- preservation

  lemma OneOwner(s: Sys, p: Pid, q: Pid)
    requires Inv(s) && p in s.procs && q in s.procs && s.procs[p].owner.Child? && s.procs[p].owner == s.procs[q].owner
    ensures p == q
  {
    assert ProcOk(s, p) && ProcOk(s, q);
    assert p in s.table ==> EntryOk(s, p);
    assert q in s.table ==> EntryOk(s, q);
  }

  lemma AdoptStep(s: Sys, a: Pid)
    requires Inv(s) && Enabled(s, Adopt(a))
    ensures Inv(Apply(s, Adopt(a)))
  {
    var s' := Apply(s, Adopt(a));
    forall p | p in s'.table ensures EntryOk(s', p) { assert EntryOk(s, p); }
    forall p | p in s'.procs ensures ProcOk(s', p) { assert p != a ==> ProcOk(s, p); }
    forall c | c in s'.chans ensures ChanOk(s', c) { assert ChanOk(s, c); }
    assert forall p :: Zombie(s'.procs, p) ==> Zombie(s.procs, p);
  }

  lemma DieStep(s: Sys, a: Pid, st: WaitStatus)
    requires Inv(s) && Enabled(s, Die(a, st))
    ensures Inv(Apply(s, Die(a, st)))
  {
    var s' := Apply(s, Die(a, st));
    assert ProcOk(s, a);
    forall p | p in s'.table ensures EntryOk(s', p) { assert EntryOk(s, p); }
    forall p | p in s'.procs ensures ProcOk(s', p) {
      assert ProcOk(s, p);
      if s.procs[p].owner.Child? && s.procs[p].owner == s.procs[a].owner { OneOwner(s, p, a); }
    }
    forall c | c in s'.chans ensures ChanOk(s', c) { assert ChanOk(s, c); }
  }

  /** Only the lock changes hands. */
  lemma LockStep(s: Sys, l: Label)
    requires Inv(s) && Enabled(s, l) && (l.RunLock? || l.RunFail?)
    ensures Inv(Apply(s, l))
  {
    var s' := Apply(s, l);
    forall p | p in s'.table ensures EntryOk(s', p) { assert EntryOk(s, p); }
    forall p | p in s'.procs ensures ProcOk(s', p) { assert ProcOk(s, p); }
    forall c | c in s'.chans ensures ChanOk(s', c) { assert ChanOk(s, c); }
    hide EntryOk, ProcOk, ChanOk;
  }

  lemma SpawnEntry(s: Sys, a: Pid, c: Cid, p: Pid)
    requires LockOk(s) && Enabled(s, RunSpawn(a, c)) && p in s.table && EntryOk(s, p)
    ensures EntryOk(Apply(s, RunSpawn(a, c)), p) && p != a
  {
    assert Hand(s.pc) == [];
  }

  lemma SpawnStep(s: Sys, a: Pid, c: Cid)
    requires Inv(s) && Enabled(s, RunSpawn(a, c))
    ensures Inv(Apply(s, RunSpawn(a, c)))
  {
    var s' := Apply(s, RunSpawn(a, c));
    forall p | p in s'.table ensures EntryOk(s', p) && p != a { SpawnEntry(s, a, c, p); }
    forall p | p in s'.procs ensures ProcOk(s', p) { assert p in s.procs ==> ProcOk(s, p); }
    forall c | c in s'.chans ensures ChanOk(s', c) { assert ChanOk(s, c); }
    assert forall p :: Zombie(s'.procs, p) ==> Zombie(s.procs, p);
    hide EntryOk, ProcOk, ChanOk, Zombie;
  }

  lemma InsertEntry(s: Sys, p: Pid)
    requires Inv(s) && Enabled(s, RunInsert) && p in Apply(s, RunInsert).table
    ensures EntryOk(Apply(s, RunInsert), p)
  {
    assert Hand(s.pc) == [];
    assert p in s.table ==> EntryOk(s, p);
  }

  lemma InsertChan(s: Sys, c: Cid)
    requires Inv(s) && Enabled(s, RunInsert) && c in Apply(s, RunInsert).chans
    ensures ChanOk(Apply(s, RunInsert), c)
  {
    hide EntryOk, ProcOk;
    var s' := Apply(s, RunInsert);
    if c == s.lock.c {
      assert s'.table[s.lock.pid] == c;
    } else {
      assert ChanOk(s, c);
      if s.chans[c].Pending? {
        var p :| p in s.table && s.table[p] == c;
        assert s'.table[p] == c;
      }
    }
  }

  lemma InsertStep(s: Sys)
    requires Inv(s) && Enabled(s, RunInsert)
    ensures Inv(Apply(s, RunInsert))
  {
    var s' := Apply(s, RunInsert);
    forall p | p in s'.procs ensures ProcOk(s', p) { assert ProcOk(s, p); }
    forall p | p in s.table ensures s.table[p] in s.chans { assert EntryOk(s, p); }
    hide EntryOk, ProcOk, ChanOk, Zombie;
    forall p | p in s'.table ensures EntryOk(s', p) { InsertEntry(s, p); }
    forall c | c in s'.chans ensures ChanOk(s', c) { InsertChan(s, c); }
  }

  lemma WakeStep(s: Sys, l: Label)
    requires Inv(s) && Enabled(s, l) && (l.Wake? || l.TakeLock? || l.NoMore? || l.Finish?)
    ensures Inv(Apply(s, l))
  {
    var s' := Apply(s, l);
    assert Hand(s'.pc) == Hand(s.pc);
    forall p | p in s'.table ensures EntryOk(s', p) { assert EntryOk(s, p); }
    forall p | p in s'.procs ensures ProcOk(s', p) { assert ProcOk(s, p); }
    forall c | c in s'.chans ensures ChanOk(s', c) { assert ChanOk(s, c); }
  }

  lemma ReapStep(s: Sys, q: Pid)
    requires Inv(s) && Enabled(s, Reap(q))
    ensures Inv(Apply(s, Reap(q)))
  {
    var s' := Apply(s, Reap(q));
    assert ProcOk(s, q);
    forall p | p in s'.table ensures EntryOk(s', p) {
      assert EntryOk(s, p);
      FirstForSnoc(s.pc.got, Exited(q, s.procs[q].status.value), p);
    }
    forall p | p in s'.procs ensures ProcOk(s', p) { assert ProcOk(s, p); }
    forall c | c in s'.chans ensures ChanOk(s', c) { assert ChanOk(s, c); }
  }

  /** A status for a pid the table does not hold: an adopted process. */
  lemma DispatchMiss(s: Sys)
    requires Inv(s) && Enabled(s, Dispatch) && s.pc.rest[0].pid !in s.table
    ensures Inv(Apply(s, Dispatch))
  {
    var s' := Apply(s, Dispatch);
    forall p | p in s'.table ensures EntryOk(s', p) { assert EntryOk(s, p); }
    forall p | p in s'.procs ensures ProcOk(s', p) { assert ProcOk(s, p); }
    forall c | c in s'.chans ensures ChanOk(s', c) { assert ChanOk(s, c); }
  }

  lemma HitEntry(s: Sys, p: Pid)
    requires Inv(s) && Enabled(s, Dispatch) && s.pc.rest[0].pid in s.table && p in Apply(s, Dispatch).table
    ensures EntryOk(Apply(s, Dispatch), p)
  {
    assert EntryOk(s, p) && EntryOk(s, s.pc.rest[0].pid);
    hide ProcOk, ChanOk;
  }

  lemma HitChan(s: Sys, c: Cid)
    requires Inv(s) && Enabled(s, Dispatch) && s.pc.rest[0].pid in s.table && c in Apply(s, Dispatch).chans
    ensures ChanOk(Apply(s, Dispatch), c)
  {
    var s', x := Apply(s, Dispatch), s.pc.rest[0];
    assert EntryOk(s, x.pid);
    hide ProcOk;
    if c != s.table[x.pid] {
      assert ChanOk(s, c);
      if s.chans[c].Pending? {
        var p :| p in s.table && s.table[p] == c;
        assert p in s'.table;
      }
    }
  }

  /** A status for a pid of the table: it is that child's own. */
  lemma DispatchHit(s: Sys)
    requires Inv(s) && Enabled(s, Dispatch) && s.pc.rest[0].pid in s.table
    ensures Inv(Apply(s, Dispatch))
  {
    var s', x := Apply(s, Dispatch), s.pc.rest[0];
    assert EntryOk(s, x.pid);
    hide EntryOk, ChanOk, FirstFor, Zombie;
    forall p | p in s'.procs ensures ProcOk(s', p) { assert ProcOk(s, p); }
    hide ProcOk;
    forall p | p in s'.table ensures EntryOk(s', p) { HitEntry(s, p); }
    forall c | c in s'.chans ensures ChanOk(s', c) { HitChan(s, c); }
  }

  lemma InvStep(s: Sys, l: Label)
    requires Inv(s) && Enabled(s, l)
    ensures Inv(Apply(s, l))
  {
    hide Inv, Apply;
    match l
    case Adopt(p) => AdoptStep(s, p);
    case Die(p, st) => DieStep(s, p, st);
    case RunLock => LockStep(s, l);
    case RunFail => LockStep(s, l);
    case RunSpawn(p, c) => SpawnStep(s, p, c);
    case RunInsert => InsertStep(s);
    case Reap(p) => ReapStep(s, p);
    case Dispatch => if s.pc.rest[0].pid in s.table { DispatchHit(s); } else { DispatchMiss(s); }
    case _ => WakeStep(s, l);
  }

  lemma {:induction false} RunInv(ls: seq<Label>)
    requires Exec(ls).Some?
    ensures Inv(Exec(ls).value)
    decreases |ls|
  {
    if ls == [] {
    } else {
      RunInv(ls[..|ls| - 1]);
      InvStep(Exec(ls[..|ls| - 1]).value, ls[|ls| - 1]);
    }
  }
}
