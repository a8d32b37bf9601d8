/** The watcher protocol of lifecycle.rs as a step system: `watch_service`, `test_loop` and
    `can_schedule`, with `monitor`, `start`, `stop`, `forget`, `kill` and the shutdown's kill tasks
    running beside them. Each section under a service lock is one step. */
module Watch {
  import opened Basics
  import opened Service

  type Name = string
  type Id = nat   // a service instance; a name that is forgotten and monitored again gets a new one
  type Wid = nat  // a running `watch_service`
  type Kid = nat  // a running `kill_wait_enhanced`

  /** Where a watcher is. `epoch` is the number of `notify_waiters` calls when its `notified()` future
      was made; `seen` are the dependency instances that satisfied its current check, in order. */
  datatype Pc =
    | Entry                                            // before the gate
    | Top                                              // top of the loop
    | Capture                                          // about to make the `notified()` future
    | Check(epoch: nat, seen: seq<Id>)                 // in `can_schedule`
    | Unmet(epoch: nat, dep: nat)                      // dependency number `dep` was not satisfied
    | Parked(epoch: nat, dep: nat)                     // state forced to Blocked, awaiting the future
    | Ready(seen: seq<Id>)                             // all satisfied, about to lock and spawn
    | Waiting(pid: Pid, result: Option<WaitStatus>)    // `child.wait()`
    | Reaped(pid: Pid, status: WaitStatus)             // test loop aborted, about to lock
    | Owing                                            // one-shot finished, about to notify
    | Sleeping
    | Releasing                                        // out of the loop
    | Gone

  /** `tests` are the test loops it started that are still alive: that of the current process, and any
      that was aborted and has not stopped yet. */
  datatype Watcher = Watcher(inst: Id, pc: Pc, tests: nat)

  datatype Inst = Inst(name: Name, v: Svc)

  datatype KillPc = ToStop | ToWait | ToCheck | ToKill | ToPost | Posted

  /** `stopped` is the instance its own `stop` lowered, `at` the position of that in the history. */
  datatype Kill = Kill(name: Name, pc: KillPc, stopped: Option<Id>, at: nat)

  /** What happened, in order. */
  datatype Event =
    | Spawn(id: Id, name: Name, deps: seq<Id>, pid: Pid)
    | Exit(id: Id, status: WaitStatus)
    | Raise(id: Id)             // `start` set the target Up
    | Lower(id: Id, read: Pid)  // `stop` set the target Down and read the pid
    | Remove(id: Id)            // `forget` took the instance out of the table
    | Shut                      // the shutdown flag was set
    | Sigkill(id: Id, pid: Pid)

  /** Why a state was forced: a spawn, a one-shot taken for running at once, a spawn that failed, the status
      of the process, or one of the writes by name. */
  datatype Cause = Started | Ran | Refused | Ended(status: WaitStatus) | Named(b: ByName)

  /** A forced state write. */
  datatype Write = Write(id: Id, from: State, to: State, cause: Cause)

  datatype Sys = Sys(
    table: map<Name, Id>,
    svc: map<Id, Inst>,
    ws: map<Wid, Watcher>,
    epoch: nat,                            // calls of `notify_waiters` so far
    owed: multiset<Name>,                  // test loops that forced Running and have yet to notify
    flag: bool,                            // shutting down
    monitors: multiset<(Name, Config)>,    // `monitor` calls past the flag check
    starts: multiset<Name>,                // `start` calls past the flag check
    started: multiset<Name>,               // `start` calls past their target write
    kills: map<Kid, Kill>,
    hist: seq<Event>,
    writes: seq<Write>)

  /** The API calls; `monitor` and `start` read the shutdown flag in a step of their own. */
  datatype Request =
    | MonitorFlag(n: Name, config: Config)
    | MonitorInsert(n: Name, config: Config, i: Id, w: Wid)
    | StartFlag(n: Name)
    | StartTarget(n: Name)
    | StartWatch(n: Name, w: Wid)
    | Stop(n: Name)
    | Forget(n: Name)

  /** Steps of a watcher that lock no service for writing, and the end of one of its test loops. An abort
      may take effect at once, or leave the test loop running for a while. */
  datatype Turn = LoopTop | MakeNotified | ReadDep | Wake | Abort(prompt: bool) | NotifyExit | Slept | TestEnd

  /** A watcher's sections under the write lock of its own instance, and the death of its process. */
  datatype Section = Gate | SpawnSection(spawned: Option<Pid>) | ChildExit(status: WaitStatus) | ExitSection | Release

  /** The state writes that go by name: the watcher's Blocked, and its test loop's two outcomes. */
  datatype ByName = SetBlocked | TestPass | TestError

  /** Shutdown: the flag, and the steps of `kill_wait_enhanced`. */
  datatype Shutting = SetFlag | KillTask(n: Name) | KillStop | KillWaited | KillStatus | KillSignal | KillPost

  datatype Label =
    | Api(r: Request)
    | Turns(w: Wid, turn: Turn)
    | Sections(w: Wid, section: Section)
    | Names(w: Wid, write: ByName)
    | NotifyTest(n: Name)
    | Shuts(k: Kid, d: Shutting)

  function Init(): Sys {
    Sys(map[], map[], map[], 0, multiset{}, false, multiset{}, multiset{}, multiset{}, map[], [], [])
  }

  // ---------------------------------------------------------------- helpers

  predicate Satisfied(table: map<Name, Id>, svc: map<Id, Inst>, n: Name) {
    n in table && table[n] in svc && Satisfies(svc[table[n]].v)
  }

  function Put(svc: map<Id, Inst>, i: Id, v: Svc): map<Id, Inst>
    requires i in svc
  {
    svc[i := Inst(svc[i].name, v)]
  }

  predicate Known(s: Sys, n: Name) {
    n in s.table && s.table[n] in s.svc
  }

  /** `set_service_state(name, Some(state), None)`: by name, through the table. */
  function SetStateByName(s: Sys, n: Name, st: State, c: Cause): Sys {
    if Known(s, n) then
      var i := s.table[n];
      s.(svc := Put(s.svc, i, s.svc[i].v.(state := st)), writes := s.writes + [Write(i, s.svc[i].v.state, st, c)])
    else s
  }

  /** A target write under the table and the service lock: the locked part of `stop`, and `start`'s. */
  function Retarget(s: Sys, n: Name, t: Target): Sys {
    if Known(s, n) then
      var i := s.table[n];
      s.(svc := Put(s.svc, i, s.svc[i].v.(target := t)),
         hist := s.hist + [if t.Down? then Lower(i, s.svc[i].v.pid) else Raise(i)])
    else s
  }

  function PidByName(s: Sys, n: Name): Pid {
    if Known(s, n) then s.svc[s.table[n]].v.pid else 0
  }

  predicate At(s: Sys, w: Wid) {
    w in s.ws && s.ws[w].inst in s.svc
  }

  function InstOf(s: Sys, w: Wid): Inst
    requires At(s, w)
  {
    s.svc[s.ws[w].inst]
  }

  // ---------------------------------------------------------------- the API calls

  predicate CanRequest(s: Sys, r: Request) {
    match r
    case MonitorFlag(_, _) => !s.flag
    case MonitorInsert(n, c, i, w) => (n, c) in s.monitors && i !in s.svc && w !in s.ws
    case StartFlag(_) => !s.flag
    case StartTarget(n) => n in s.starts
    case StartWatch(n, w) => n in s.started && w !in s.ws
    case Stop(_) => true
    case Forget(_) => true
  }

  function DoInsert(s: Sys, n: Name, c: Config, i: Id, w: Wid): Sys {
    var rest := s.monitors - multiset{(n, c)};
    if n in s.table then s.(monitors := rest) else
    s.(monitors := rest, table := s.table[n := i], svc := s.svc[i := Inst(n, New(c))],
      ws := s.ws[w := Watcher(i, Entry, 0)])
  }

  function DoWatch(s: Sys, n: Name, w: Wid): Sys {
    var rest := s.started - multiset{n};
    if Known(s, n) then s.(started := rest, ws := s.ws[w := Watcher(s.table[n], Entry, 0)]) else s.(started := rest)
  }

  function DoForget(s: Sys, n: Name): Sys {
    if Known(s, n) && Forgettable(s.svc[s.table[n]].v)
    then s.(table := s.table - {n}, hist := s.hist + [Remove(s.table[n])]) else s
  }

  function DoRequest(s: Sys, r: Request): Sys
    requires CanRequest(s, r)
  {
    match r
    case MonitorFlag(n, c) => s.(monitors := s.monitors + multiset{(n, c)})
    case MonitorInsert(n, c, i, w) => DoInsert(s, n, c, i, w)
    case StartFlag(n) => s.(starts := s.starts + multiset{n})
    case StartTarget(n) => Retarget(s, n, Up).(starts := s.starts - multiset{n}, started := s.started + multiset{n})
    case StartWatch(n, w) => DoWatch(s, n, w)
    case Stop(n) => Retarget(s, n, Down)
    case Forget(n) => DoForget(s, n)
  }

  // ---------------------------------------------------------------- the watchers and their test loops

  predicate CanTurn(s: Sys, w: Wid, t: Turn) {
    At(s, w) &&
    match t
    case LoopTop => s.ws[w].pc.Top?
    case MakeNotified => s.ws[w].pc.Capture?
    case ReadDep => s.ws[w].pc.Check? && |s.ws[w].pc.seen| <= |InstOf(s, w).v.config.after|
    case Wake => s.ws[w].pc.Parked? && s.epoch > s.ws[w].pc.epoch
    case Abort(_) => s.ws[w].pc.Waiting? && s.ws[w].pc.result.Some?
    case NotifyExit => s.ws[w].pc.Owing?
    case Slept => s.ws[w].pc.Sleeping?
    case TestEnd => s.ws[w].tests > 0
  }

  function TurnTo(s: Sys, w: Wid, t: Turn): Pc
    requires CanTurn(s, w, t)
  {
    var pc := s.ws[w].pc;
    match t
    case LoopTop => if InstOf(s, w).v.target.Down? then Releasing else Capture
    case MakeNotified => Check(s.epoch, [])
    case ReadDep =>
      var after := InstOf(s, w).v.config.after;
      if |pc.seen| == |after| then Ready(pc.seen)
      else if Satisfied(s.table, s.svc, after[|pc.seen|]) then Check(pc.epoch, pc.seen + [s.table[after[|pc.seen|]]])
      else Unmet(pc.epoch, |pc.seen|)
    case Wake => Capture
    case Abort(_) => Reaped(pc.pid, pc.result.value)
    case NotifyExit => Releasing
    case Slept => Top
    case TestEnd => pc
  }

  function TestsAfter(tests: nat, t: Turn): nat {
    if tests > 0 && (t.TestEnd? || (t.Abort? && t.prompt)) then tests - 1 else tests
  }

  function DoTurn(s: Sys, w: Wid, t: Turn): Sys
    requires CanTurn(s, w, t)
  {
    s.(ws := s.ws[w := Watcher(s.ws[w].inst, TurnTo(s, w, t), TestsAfter(s.ws[w].tests, t))],
       epoch := if t.NotifyExit? then s.epoch + 1 else s.epoch)
  }

  /** What a section does: the new instance, where the watcher goes, whether a test loop starts, what
      happened, what was forced. */
  datatype Effect = Effect(v: Svc, pc: Pc, tests: bool, events: seq<Event>, writes: seq<Forced>)

  datatype Forced = Forced(from: State, to: State, cause: Cause)

  predicate CanSection(s: Sys, w: Wid, c: Section) {
    At(s, w) &&
    match c
    case Gate => s.ws[w].pc.Entry?
    case SpawnSection(o) =>
      s.ws[w].pc.Ready? && (o.Some? ==> o.value != 0 && forall x :: x in s.ws ==> s.ws[x].pc != Waiting(o.value, None))
    case ChildExit(_) => s.ws[w].pc.Waiting? && s.ws[w].pc.result.None?
    case ExitSection => s.ws[w].pc.Reaped?
    case Release => s.ws[w].pc.Releasing?
  }

  function SpawnEffect(i: Id, n: Name, v: Svc, seen: seq<Id>, o: Option<Pid>): Effect {
    if v.target.Down? then Effect(v, Releasing, false, [], []) else
    match o
    case None => Effect(SpawnFailed(v), Releasing, false, [], [Forced(v.state, Failure, Refused)])
    case Some(p) => Effect(SpawnedAs(v, p), Waiting(p, None), !v.config.oneShot, [Spawn(i, n, seen, p)],
                           [Forced(v.state, State.Spawned, Started)]
                             + if v.config.oneShot then [Forced(State.Spawned, Running, Ran)] else [])
  }

  function Outcome(s: Sys, w: Wid, c: Section): Effect
    requires CanSection(s, w, c)
  {
    var x, v := s.ws[w], InstOf(s, w).v;
    match c
    case Gate => if GateOpens(v) then Effect(Scheduled(v), Top, false, [], []) else Effect(v, Gone, false, [], [])
    case SpawnSection(o) => SpawnEffect(x.inst, InstOf(s, w).name, v, x.pc.seen, o)
    case ChildExit(st) => Effect(v, Waiting(x.pc.pid, Some(st)), false, [Exit(x.inst, st)], [])
    case ExitSection =>
      Effect(Finished(v, x.pc.status), if v.config.oneShot then Owing else Sleeping, false, [],
        [Forced(v.state, ExitState(x.pc.status), Ended(x.pc.status))])
    case Release => Effect(Released(v), Gone, false, [], [])
  }

  function WritesOf(i: Id, ws: seq<Forced>): seq<Write> {
    seq(|ws|, k requires 0 <= k < |ws| => Write(i, ws[k].from, ws[k].to, ws[k].cause))
  }

  function DoSection(s: Sys, w: Wid, c: Section): Sys
    requires CanSection(s, w, c)
  {
    var i, e := s.ws[w].inst, Outcome(s, w, c);
    s.(svc := Put(s.svc, i, e.v), ws := s.ws[w := Watcher(i, e.pc, s.ws[w].tests + if e.tests then 1 else 0)],
       hist := s.hist + e.events, writes := s.writes + WritesOf(i, e.writes))
  }

  predicate CanName(s: Sys, w: Wid, b: ByName) {
    At(s, w) &&
    match b
    case SetBlocked => s.ws[w].pc.Unmet?
    case TestPass => s.ws[w].tests > 0
    case TestError => s.ws[w].tests > 0 && InstOf(s, w).v.config.hasTest
  }

  function NamedState(b: ByName): State {
    match b case SetBlocked => Blocked case TestPass => Running case TestError => TestFailure
  }

  function DoName(s: Sys, w: Wid, b: ByName): Sys
    requires CanName(s, w, b)
  {
    var x, n := s.ws[w], InstOf(s, w).name;
    SetStateByName(s, n, NamedState(b), Named(b)).(
      ws := s.ws[w := Watcher(x.inst,
                              if b.SetBlocked? then Parked(x.pc.epoch, x.pc.dep) else x.pc,
                              if b.TestPass? then x.tests - 1 else x.tests)],
      owed := if b.TestPass? then s.owed + multiset{n} else s.owed)
  }

  // ---------------------------------------------------------------- the shutdown's kill tasks

  predicate CanShut(s: Sys, k: Kid, d: Shutting) {
    if d.SetFlag? then true else if d.KillTask? then s.flag && k !in s.kills else
    k in s.kills &&
    match d
    case KillStop => s.kills[k].pc.ToStop?
    case KillWaited => s.kills[k].pc.ToWait?
    case KillStatus => s.kills[k].pc.ToCheck?
    case KillSignal => s.kills[k].pc.ToKill?
    case KillPost => s.kills[k].pc.ToPost?
    case _ => false
  }

  /** The kill task after its step. */
  function KillTo(s: Sys, k: Kid, d: Shutting): Kill
    requires CanShut(s, k, d) && !d.SetFlag? && !d.KillTask?
  {
    var t := s.kills[k];
    match d
    case KillStop =>
      if Known(s, t.name) then Kill(t.name, ToWait, Some(s.table[t.name]), |s.hist|) else Kill(t.name, ToCheck, None, 0)
    case KillWaited => t.(pc := ToCheck)
    case KillStatus => t.(pc := if PidByName(s, t.name) != 0 then ToKill else ToPost)
    case KillSignal => t.(pc := ToPost)
    case _ => t.(pc := Posted)
  }

  function DoShut(s: Sys, k: Kid, d: Shutting): Sys
    requires CanShut(s, k, d)
  {
    match d
    case SetFlag => s.(flag := true, hist := s.hist + [Shut])
    case KillTask(n) => s.(kills := s.kills[k := Kill(n, ToStop, None, 0)])
    case KillStop => Retarget(s, s.kills[k].name, Down).(kills := s.kills[k := KillTo(s, k, d)])
    case KillSignal =>
      var n := s.kills[k].name;
      s.(kills := s.kills[k := KillTo(s, k, d)],
         hist := if PidByName(s, n) != 0 then s.hist + [Sigkill(s.table[n], PidByName(s, n))] else s.hist)
    case _ => s.(kills := s.kills[k := KillTo(s, k, d)])
  }

  // ---------------------------------------------------------------- steps and runs

  /** The step is possible now. */
  predicate Enabled(s: Sys, l: Label) {
    match l
    case Api(r) => CanRequest(s, r)
    case Turns(w, t) => CanTurn(s, w, t)
    case Sections(w, c) => CanSection(s, w, c)
    case Names(w, b) => CanName(s, w, b)
    case NotifyTest(n) => n in s.owed
    case Shuts(k, d) => CanShut(s, k, d)
  }

  function Apply(s: Sys, l: Label): Sys
    requires Enabled(s, l)
  {
    match l
    case Api(r) => DoRequest(s, r)
    case Turns(w, t) => DoTurn(s, w, t)
    case Sections(w, c) => DoSection(s, w, c)
    case Names(w, b) => DoName(s, w, b)
    case NotifyTest(n) => s.(owed := s.owed - multiset{n}, epoch := s.epoch + 1)
    case Shuts(k, d) => DoShut(s, k, d)
  }

  /** The state after the steps `ls` from the start, if each of them is possible when taken. */
  function Exec(ls: seq<Label>): Option<Sys>
    decreases |ls|
  {
    if ls == [] then Some(Init()) else
    match Exec(ls[..|ls| - 1])
    case None => None
    case Some(s) => if Enabled(s, ls[|ls| - 1]) then Some(Apply(s, ls[|ls| - 1])) else None
  }
}
