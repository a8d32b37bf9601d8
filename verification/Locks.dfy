/** The lock order of the whole program, and why it cannot deadlock. The locks are fair: a request
    queues behind the earlier ones, also when it only reads. */
module Locks {
  import opened Basics

  type Tid = nat

  datatype Lock = Flag | Table | Svc(id: nat) | Procs | Log

  datatype Mode = Read | Write // a mutex is always taken to write

  function Rank(l: Lock): nat {
    match l
    case Flag => 0
    case Table => 1
    case Svc(_) => 2
    case Procs => 3
    case Log => 4
  }

  /** `Park` waits for a notification, a child, a signal or a channel; `Pause` is work or a timed sleep,
      which ends by itself. */
  datatype Op = Acquire(lock: Lock, mode: Mode) | Release(lock: Lock) | Park | Pause

  /** The locked sections of the program; between two of them a task holds nothing. */
  datatype Section =
    | FlagSection(mode: Mode)                    // the shutdown flag
    | TableOnly(mode: Mode)                      // list, monitor's insert, a name that is not there
    | Lookup(id: nat, mode: Mode)                // status, kill, stop, set_service_state, stats (which sleeps inside)
    | ForgetOne(id: nat)
    | Sweep(ids: seq<nat>)                       // can_schedule, power, dependency order, final verification
    | Own(id: nat, mode: Mode)                   // the watcher on its own instance
    | SpawnOwn(id: nat, logs: bool)              // ... around `ProcessManager::run`, which may log
    | RunTest(logs: bool)                        // `run` for a test command
    | Reap
    | LogLine                                    // ring push, log snapshot
    | Await                                      // notify, child, SIGCHLD, death channel, log channel

  function SweepOps(ids: seq<nat>): seq<Op> {
    if ids == [] then [] else [Acquire(Svc(ids[0]), Read), Pause, Release(Svc(ids[0]))] + SweepOps(ids[1..])
  }

  const LogOps := [Acquire(Log, Write), Release(Log)]

  function RunOps(logs: bool): seq<Op> {
    [Acquire(Procs, Write), Pause] + (if logs then LogOps else []) + [Release(Procs)]
  }

  function Ops(c: Section): seq<Op> {
    match c
    case FlagSection(m) => [Acquire(Flag, m), Release(Flag)]
    case TableOnly(m) => [Acquire(Table, m), Release(Table)]
    case Lookup(i, m) => [Acquire(Table, Read), Acquire(Svc(i), m), Pause, Release(Svc(i)), Release(Table)]
    case ForgetOne(i) => [Acquire(Table, Write), Acquire(Svc(i), Read), Release(Svc(i)), Release(Table)]
    case Sweep(ids) => [Acquire(Table, Read)] + SweepOps(ids) + [Release(Table)]
    case Own(i, m) => [Acquire(Svc(i), m), Release(Svc(i))]
    case SpawnOwn(i, logs) => [Acquire(Svc(i), Write)] + RunOps(logs) + [Release(Svc(i))]
    case RunTest(logs) => RunOps(logs)
    case Reap => [Acquire(Procs, Write), Pause, Release(Procs)]
    case LogLine => LogOps
    case Await => [Park]
  }

  /** Any task is a sequence of sections. */
  function Program(cs: seq<Section>): seq<Op> {
    if cs == [] then [] else Ops(cs[0]) + Program(cs[1..])
  }

  /** Locks are taken in increasing rank, a task parks and ends with none held. */
  ghost predicate Ranked(held: map<Lock, Mode>, ops: seq<Op>)
    decreases |ops|
  {
    if ops == [] then held == map[] else
    match ops[0]
    case Acquire(l, m) => (forall x :: x in held ==> Rank(x) < Rank(l)) && Ranked(held[l := m], ops[1..])
    case Release(l) => l in held && Ranked(held - {l}, ops[1..])
    case Park => held == map[] && Ranked(held, ops[1..])
    case Pause => Ranked(held, ops[1..])
  }

  // ---------------------------------------------------------------- every program is ranked

  lemma {:induction false} RankedAppend(held: map<Lock, Mode>, a: seq<Op>, b: seq<Op>)
    requires Ranked(held, a) && Ranked(map[], b)
    ensures Ranked(held, a + b)
    decreases |a|
  {
    if a == [] {
      assert a + b == b;
    } else {
      assert (a + b)[1..] == a[1..] + b;
      match a[0]
      case Acquire(l, m) => RankedAppend(held[l := m], a[1..], b);
      case Release(l) => RankedAppend(held - {l}, a[1..], b);
      case _ => RankedAppend(held, a[1..], b);
    }
  }

  /** One operation at the front. */
  lemma Front(held: map<Lock, Mode>, op: Op, rest: seq<Op>)
    requires match op
             case Acquire(l, m) => (forall x :: x in held ==> Rank(x) < Rank(l)) && Ranked(held[l := m], rest)
             case Release(l) => l in held && Ranked(held - {l}, rest)
             case Park => held == map[] && Ranked(held, rest)
             case Pause => Ranked(held, rest)
    ensures Ranked(held, [op] + rest)
  {
    assert ([op] + rest)[1..] == rest;
  }

  lemma GiveBack(held: map<Lock, Mode>, l: Lock, m: Mode, tail: seq<Op>)
    requires l !in held && Ranked(held, tail)
    ensures Ranked(held[l := m], [Release(l)] + tail)
  {
    assert held[l := m] - {l} == held;
    Front(held[l := m], Release(l), tail);
  }

  lemma SweepOne(i: nat, m: Mode, tail: seq<Op>)
    requires Ranked(map[Table := m], tail)
    ensures Ranked(map[Table := m], [Acquire(Svc(i), Read), Pause, Release(Svc(i))] + tail)
  {
    var held, l := map[Table := m], Svc(i);
    GiveBack(held, l, Read, tail);
    Front(held[l := Read], Pause, [Release(l)] + tail);
    Front(held, Acquire(l, Read), [Pause] + ([Release(l)] + tail));
    assert [Acquire(l, Read), Pause, Release(l)] + tail == [Acquire(l, Read)] + ([Pause] + ([Release(l)] + tail));
  }

  lemma {:induction false} SweepRanked(ids: seq<nat>, m: Mode, tail: seq<Op>)
    requires Ranked(map[Table := m], tail)
    ensures Ranked(map[Table := m], SweepOps(ids) + tail)
    decreases |ids|
  {
    hide Ranked;
    if ids == [] {
      assert SweepOps(ids) + tail == tail;
    } else {
      var one := [Acquire(Svc(ids[0]), Read), Pause, Release(Svc(ids[0]))];
      SweepRanked(ids[1..], m, tail);
      SweepOne(ids[0], m, SweepOps(ids[1..]) + tail);
      assert SweepOps(ids) + tail == one + (SweepOps(ids[1..]) + tail);
    }
  }

  lemma LogRanked(held: map<Lock, Mode>, logs: bool, tail: seq<Op>)
    requires (forall x :: x in held ==> Rank(x) < Rank(Log)) && Ranked(held, tail)
    ensures Ranked(held, (if logs then LogOps else []) + tail)
  {
    hide Ranked;
    if logs {
      var back := [Release(Log)] + tail;
      GiveBack(held, Log, Write, tail);
      Front(held, Acquire(Log, Write), back);
      assert LogOps + tail == [Acquire(Log, Write)] + back;
    } else {
      NoneBefore(tail);
    }
  }

  lemma NoneBefore(tail: seq<Op>)
    ensures [] + tail == tail
  {
  }

  lemma RunRanked(held: map<Lock, Mode>, logs: bool, tail: seq<Op>)
    requires (forall x :: x in held ==> Rank(x) < Rank(Procs)) && Ranked(held, tail)
    ensures Ranked(held, RunOps(logs) + tail)
  {
    var h, back := held[Procs := Write], [Release(Procs)] + tail;
    GiveBack(held, Procs, Write, tail);
    LogRanked(h, logs, back);
    var rest := (if logs then LogOps else []) + back;
    Front(h, Pause, rest);
    Front(held, Acquire(Procs, Write), [Pause] + rest);
    hide Ranked;
    assert RunOps(logs) + tail == [Acquire(Procs, Write)] + ([Pause] + rest);
  }

  lemma OneLock(l: Lock, m: Mode)
    ensures Ranked(map[], [Acquire(l, m), Release(l)]) && Ranked(map[], [Acquire(l, m), Pause, Release(l)])
  {
    GiveBack(map[], l, m, []);
    assert [Release(l)] + [] == [Release(l)];
    Front(map[l := m], Pause, [Release(l)]);
    Front(map[], Acquire(l, m), [Release(l)]);
    Front(map[], Acquire(l, m), [Pause] + [Release(l)]);
    assert [Acquire(l, m)] + [Release(l)] == [Acquire(l, m), Release(l)];
    assert [Acquire(l, m)] + ([Pause] + [Release(l)]) == [Acquire(l, m), Pause, Release(l)];
  }

  lemma LookupRanked(i: nat, t: Mode, m: Mode)
    ensures Ranked(map[], [Acquire(Table, t), Acquire(Svc(i), m), Pause, Release(Svc(i)), Release(Table)])
    ensures Ranked(map[], [Acquire(Table, t), Acquire(Svc(i), m), Release(Svc(i)), Release(Table)])
  {
    var h := map[Table := t];
    GiveBack(map[], Table, t, []);
    assert [Release(Table)] + [] == [Release(Table)];
    GiveBack(h, Svc(i), m, [Release(Table)]);
    var back := [Release(Svc(i))] + [Release(Table)];
    Front(h[Svc(i) := m], Pause, back);
    Front(h, Acquire(Svc(i), m), back);
    Front(h, Acquire(Svc(i), m), [Pause] + back);
    Front(map[], Acquire(Table, t), [Acquire(Svc(i), m)] + back);
    Front(map[], Acquire(Table, t), [Acquire(Svc(i), m)] + ([Pause] + back));
    assert [Acquire(Table, t)] + ([Acquire(Svc(i), m)] + back)
        == [Acquire(Table, t), Acquire(Svc(i), m), Release(Svc(i)), Release(Table)];
    assert [Acquire(Table, t)] + ([Acquire(Svc(i), m)] + ([Pause] + back))
        == [Acquire(Table, t), Acquire(Svc(i), m), Pause, Release(Svc(i)), Release(Table)];
  }

  lemma SectionRanked(c: Section)
    ensures Ranked(map[], Ops(c))
  {
    match c
    case FlagSection(m) => OneLock(Flag, m);
    case TableOnly(m) => OneLock(Table, m);
    case Lookup(i, m) => LookupRanked(i, Read, m);
    case ForgetOne(i) => LookupRanked(i, Write, Read);
    case Sweep(ids) =>
      GiveBack(map[], Table, Read, []);
      assert [Release(Table)] + [] == [Release(Table)];
      SweepRanked(ids, Read, [Release(Table)]);
      Front(map[], Acquire(Table, Read), SweepOps(ids) + [Release(Table)]);
      assert Ops(c) == [Acquire(Table, Read)] + (SweepOps(ids) + [Release(Table)]);
    case Own(i, m) => OneLock(Svc(i), m);
    case SpawnOwn(i, logs) =>
      GiveBack(map[], Svc(i), Write, []);
      assert [Release(Svc(i))] + [] == [Release(Svc(i))];
      RunRanked(map[Svc(i) := Write], logs, [Release(Svc(i))]);
      Front(map[], Acquire(Svc(i), Write), RunOps(logs) + [Release(Svc(i))]);
      assert Ops(c) == [Acquire(Svc(i), Write)] + (RunOps(logs) + [Release(Svc(i))]);
    case RunTest(logs) =>
      RunRanked(map[], logs, []);
      assert RunOps(logs) + [] == RunOps(logs);
    case Reap => OneLock(Procs, Write);
    case LogLine => OneLock(Log, Write);
    case Await =>
  }

  lemma {:induction false} ProgramRanked(cs: seq<Section>)
    ensures Ranked(map[], Program(cs))
  {
    if cs == [] {
    } else {
      SectionRanked(cs[0]);
      ProgramRanked(cs[1..]);
      RankedAppend(map[], Ops(cs[0]), Program(cs[1..]));
    }
  }

  // ---------------------------------------------------------------- tasks and fair locks

  datatype Task = Task(held: map<Lock, Mode>, todo: seq<Op>)

  datatype Sys = Sys(tasks: map<Tid, Task>, queues: map<Lock, seq<Tid>>)

  datatype Label = Begin(t: Tid, cs: seq<Section>) | Ask(t: Tid) | Grant(t: Tid) | Free(t: Tid) | Go(t: Tid)

  function Queue(s: Sys, l: Lock): seq<Tid> {
    if l in s.queues then s.queues[l] else []
  }

  predicate Wants(s: Sys, t: Tid, l: Lock) {
    t in s.tasks && s.tasks[t].todo != [] && s.tasks[t].todo[0].Acquire? && s.tasks[t].todo[0].lock == l
  }

  predicate Queued(s: Sys, t: Tid) {
    t in s.tasks && s.tasks[t].todo != [] && s.tasks[t].todo[0].Acquire? && t in Queue(s, s.tasks[t].todo[0].lock)
  }

  predicate Compatible(a: Mode, b: Mode) {
    a.Read? && b.Read?
  }

  predicate Available(s: Sys, l: Lock, m: Mode) {
    forall u :: u in s.tasks && l in s.tasks[u].held ==> Compatible(s.tasks[u].held[l], m)
  }

  predicate Enabled(s: Sys, l: Label) {
    match l
    case Begin(t, _) => t !in s.tasks
    case Ask(t) => t in s.tasks && s.tasks[t].todo != [] && s.tasks[t].todo[0].Acquire? && !Queued(s, t)
    case Grant(t) => Queued(s, t) && Queue(s, s.tasks[t].todo[0].lock)[0] == t
      && Available(s, s.tasks[t].todo[0].lock, s.tasks[t].todo[0].mode)
    case Free(t) => t in s.tasks && s.tasks[t].todo != [] && s.tasks[t].todo[0].Release?
    case Go(t) => t in s.tasks && s.tasks[t].todo != [] && (s.tasks[t].todo[0].Park? || s.tasks[t].todo[0].Pause?)
  }

  function Apply(s: Sys, l: Label): Sys
    requires Enabled(s, l)
  {
    match l
    case Begin(t, cs) => s.(tasks := s.tasks[t := Task(map[], Program(cs))])
    case Ask(t) => var k := s.tasks[t].todo[0].lock; s.(queues := s.queues[k := Queue(s, k) + [t]])
    case Grant(t) =>
      var x, op := s.tasks[t], s.tasks[t].todo[0];
      Sys(s.tasks[t := Task(x.held[op.lock := op.mode], x.todo[1..])], s.queues[op.lock := Queue(s, op.lock)[1..]])
    case Free(t) => var x := s.tasks[t]; s.(tasks := s.tasks[t := Task(x.held - {x.todo[0].lock}, x.todo[1..])])
    case Go(t) => var x := s.tasks[t]; s.(tasks := s.tasks[t := Task(x.held, x.todo[1..])])
  }

  function Exec(ls: seq<Label>): Option<Sys>
    decreases |ls|
  {
    if ls == [] then Some(Sys(map[], map[])) else
    match Exec(ls[..|ls| - 1])
    case None => None
    case Some(s) => if Enabled(s, ls[|ls| - 1]) then Some(Apply(s, ls[|ls| - 1])) else None
  }

  ghost predicate Inv(s: Sys) {
    && (forall t :: t in s.tasks ==> Ranked(s.tasks[t].held, s.tasks[t].todo))
    && (forall l, k :: 0 <= k < |Queue(s, l)| ==> Wants(s, Queue(s, l)[k], l))
    && (forall l, j, k :: 0 <= j < k < |Queue(s, l)| ==> Queue(s, l)[j] != Queue(s, l)[k])
  }

  /** Tasks that wait in no queue may do anything ranked. */
  lemma MoveInv(s: Sys, t: Tid, x: Task)
    requires Inv(s) && Ranked(x.held, x.todo) && !Queued(s, t)
    ensures Inv(s.(tasks := s.tasks[t := x]))
  {
    hide Ranked;
    var s' := s.(tasks := s.tasks[t := x]);
    forall l: Lock, k: int | 0 <= k < |Queue(s', l)| ensures Wants(s', Queue(s', l)[k], l) {
      assert Queue(s', l) == Queue(s, l);
      assert Wants(s, Queue(s, l)[k], l);
    }
    forall l: Lock, j: int, k: int | 0 <= j < k < |Queue(s', l)| ensures Queue(s', l)[j] != Queue(s', l)[k] {
      assert Queue(s', l) == Queue(s, l);
    }
  }

  lemma AskInv(s: Sys, t: Tid)
    requires Inv(s) && Enabled(s, Ask(t))
    ensures Inv(Apply(s, Ask(t)))
  {
    hide Ranked;
    var s', m := Apply(s, Ask(t)), s.tasks[t].todo[0].lock;
    forall l: Lock, k: int | 0 <= k < |Queue(s', l)| ensures Wants(s', Queue(s', l)[k], l) {
      if l != m || k < |Queue(s, l)| { assert Wants(s, Queue(s, l)[k], l); }
    }
    forall l: Lock, j: int, k: int | 0 <= j < k < |Queue(s', l)| ensures Queue(s', l)[j] != Queue(s', l)[k] {
      if l != m { assert Queue(s', l) == Queue(s, l); }
    }
  }

  lemma GrantInv(s: Sys, t: Tid)
    requires Inv(s) && Enabled(s, Grant(t))
    ensures Inv(Apply(s, Grant(t)))
  {
    var s', m := Apply(s, Grant(t)), s.tasks[t].todo[0].lock;
    assert Ranked(s.tasks[t].held, s.tasks[t].todo);
    hide Ranked;
    forall l: Lock, k: int | 0 <= k < |Queue(s', l)| ensures Wants(s', Queue(s', l)[k], l) {
      var k' := if l == m then k + 1 else k;
      assert Queue(s', l)[k] == Queue(s, l)[k'];
      assert Wants(s, Queue(s, l)[k'], l);
    }
    forall l: Lock, j: int, k: int | 0 <= j < k < |Queue(s', l)| ensures Queue(s', l)[j] != Queue(s', l)[k] {
      var d := if l == m then 1 else 0;
      assert Queue(s', l)[j] == Queue(s, l)[j + d] && Queue(s', l)[k] == Queue(s, l)[k + d];
    }
  }

  lemma InvStep(s: Sys, l: Label)
    requires Inv(s) && Enabled(s, l)
    ensures Inv(Apply(s, l))
  {
    match l
    case Begin(t, cs) =>
      ProgramRanked(cs);
      MoveInv(s, t, Task(map[], Program(cs)));
    case Ask(t) => AskInv(s, t);
    case Grant(t) => GrantInv(s, t);
    case Free(t) =>
      assert Ranked(s.tasks[t].held, s.tasks[t].todo);
      MoveInv(s, t, Task(s.tasks[t].held - {s.tasks[t].todo[0].lock}, s.tasks[t].todo[1..]));
    case Go(t) =>
      assert Ranked(s.tasks[t].held, s.tasks[t].todo);
      MoveInv(s, t, Task(s.tasks[t].held, s.tasks[t].todo[1..]));
  }

  lemma {:induction false} RunInv(ls: seq<Label>)
    requires Exec(ls).Some?
    ensures Inv(Exec(ls).value)
    decreases |ls|
  {
    if ls == [] {
    } else {
      RunInv(ls[..|ls| - 1]);
      InvStep(Exec(ls[..|ls| - 1]).value, ls[|ls| - 1]);
    }
  }

  // ---------------------------------------------------------------- mutual exclusion

  ghost predicate Exclusive(s: Sys) {
    forall t, u, l :: t in s.tasks && u in s.tasks && t != u && l in s.tasks[t].held && l in s.tasks[u].held ==>
      s.tasks[t].held[l] == Read && s.tasks[u].held[l] == Read
  }

  /** A task whose locks were its own before, or are granted now. */
  lemma ExclusiveMove(s: Sys, t: Tid, x: Task, queues: map<Lock, seq<Tid>>)
    requires Exclusive(s)
    requires forall l :: l in x.held && !(t in s.tasks && l in s.tasks[t].held && s.tasks[t].held[l] == x.held[l]) ==>
        Available(s, l, x.held[l])
    ensures Exclusive(Sys(s.tasks[t := x], queues))
  {
  }

  lemma ExclusiveStep(s: Sys, l: Label)
    requires Exclusive(s) && Enabled(s, l)
    ensures Exclusive(Apply(s, l))
  {
    hide Exclusive, Available;
    match l
    case Begin(t, cs) => ExclusiveMove(s, t, Task(map[], Program(cs)), s.queues);
    case Ask(t) =>
      assert s.tasks[t := s.tasks[t]] == s.tasks;
      ExclusiveMove(s, t, s.tasks[t], Apply(s, l).queues);
    case Grant(t) => ExclusiveMove(s, t, Apply(s, l).tasks[t], Apply(s, l).queues);
    case Free(t) => ExclusiveMove(s, t, Apply(s, l).tasks[t], s.queues);
    case Go(t) => ExclusiveMove(s, t, Apply(s, l).tasks[t], s.queues);
  }

  lemma {:induction false} RunExclusive(ls: seq<Label>)
    requires Exec(ls).Some?
    ensures Exclusive(Exec(ls).value)
    decreases |ls|
  {
    if ls == [] {
    } else {
      RunExclusive(ls[..|ls| - 1]);
      ExclusiveStep(Exec(ls[..|ls| - 1]).value, ls[|ls| - 1]);
    }
  }

  /** In every reachable state two tasks hold a lock at once only if both hold it to read. */
  lemma MutualExclusion(ls: seq<Label>, t: Tid, u: Tid, l: Lock)
    requires Exec(ls).Some? && t in Exec(ls).value.tasks && u in Exec(ls).value.tasks && t != u
    requires l in Exec(ls).value.tasks[t].held && l in Exec(ls).value.tasks[u].held
    ensures Exec(ls).value.tasks[t].held[l] == Read && Exec(ls).value.tasks[u].held[l] == Read
  {
    RunExclusive(ls);
  }

  /** A task that waits in a queue gets its lock exactly when it is the first there, and nobody holds the lock
      or all who hold it and the task itself only read. */
  lemma GrantedIff(s: Sys, t: Tid)
    requires Queued(s, t)
    ensures var op := s.tasks[t].todo[0];
            Enabled(s, Grant(t)) <==>
              && s.queues[op.lock][0] == t
              && forall u :: u in s.tasks && op.lock in s.tasks[u].held ==>
                op.mode == Read && s.tasks[u].held[op.lock] == Read
  {
  }

  /** The locks a list of operations takes, in order. */
  function Taken(ops: seq<Op>): seq<(Lock, Mode)> {
    if ops == [] then [] else
    (match ops[0] case Acquire(l, m) => [(l, m)] case _ => []) + Taken(ops[1..])
  }

  lemma {:induction false} TakenAppend(a: seq<Op>, b: seq<Op>)
    ensures Taken(a + b) == Taken(a) + Taken(b)
    decreases |a|
  {
    if a == [] {
      assert a + b == b;
    } else {
      TakenAppend(a[1..], b);
      TakesFirst(a[0], a[1..]);
      TakesFirst(a[0], a[1..] + b);
      hide Taken;
      assert [a[0]] + a[1..] == a && [a[0]] + (a[1..] + b) == a + b;
    }
  }

  lemma {:induction false} SweepTakes(ids: seq<nat>)
    ensures Taken(SweepOps(ids)) == seq(|ids|, k requires 0 <= k < |ids| => (Svc(ids[k]), Read))
    decreases |ids|
  {
    if ids == [] {
    } else {
      var one := [Acquire(Svc(ids[0]), Read), Pause, Release(Svc(ids[0]))];
      SweepTakes(ids[1..]);
      TakenAppend(one, SweepOps(ids[1..]));
      TakesFirst(Acquire(Svc(ids[0]), Read), [Pause, Release(Svc(ids[0]))]);
      TakesFirst(Pause, [Release(Svc(ids[0]))]);
      TakesFirst(Release(Svc(ids[0])), []);
      assert [Acquire(Svc(ids[0]), Read)] + [Pause, Release(Svc(ids[0]))] == one;
      assert [Pause] + [Release(Svc(ids[0]))] == [Pause, Release(Svc(ids[0]))];
    }
  }

  lemma TakesFirst(op: Op, rest: seq<Op>)
    ensures Taken([op] + rest) == (if op.Acquire? then [(op.lock, op.mode)] else []) + Taken(rest)
  {
    assert ([op] + rest)[1..] == rest;
  }

  /** The locks each section takes, in order. */
  lemma SectionTakes(c: Section)
    ensures Taken(Ops(c)) ==
              match c
              case FlagSection(m) => [(Flag, m)]
              case TableOnly(m) => [(Table, m)]
              case Lookup(i, m) => [(Table, Read), (Svc(i), m)]
              case ForgetOne(i) => [(Table, Write), (Svc(i), Read)]
              case Sweep(ids) => [(Table, Read)] + seq(|ids|, k requires 0 <= k < |ids| => (Svc(ids[k]), Read))
              case Own(i, m) => [(Svc(i), m)]
              case SpawnOwn(i, logs) => [(Svc(i), Write), (Procs, Write)] + if logs then [(Log, Write)] else []
              case RunTest(logs) => [(Procs, Write)] + if logs then [(Log, Write)] else []
              case Reap => [(Procs, Write)]
              case LogLine => [(Log, Write)]
              case Await => []
  {
    match c
    case Sweep(ids) =>
      SweepTakes(ids);
      WrapTakes(Table, Read, SweepOps(ids));
    case SpawnOwn(i, logs) =>
      RunTakes(logs);
      WrapTakes(Svc(i), Write, RunOps(logs));
    case RunTest(logs) => RunTakes(logs);
    case Lookup(i, m) => FewTake(Ops(c));
    case ForgetOne(i) => FewTake(Ops(c));
    case _ => FewTake(Ops(c));
  }

  lemma WrapTakes(l: Lock, m: Mode, ops: seq<Op>)
    ensures Taken([Acquire(l, m)] + ops + [Release(l)]) == [(l, m)] + Taken(ops)
  {
    TakenAppend([Acquire(l, m)] + ops, [Release(l)]);
    TakenAppend([Acquire(l, m)], ops);
    OneTakes(Acquire(l, m));
    OneTakes(Release(l));
  }

  lemma OneTakes(op: Op)
    ensures Taken([op]) == if op.Acquire? then [(op.lock, op.mode)] else []
  {
    TakesFirst(op, []);
    assert [op] + [] == [op];
  }

  lemma RunTakes(logs: bool)
    ensures Taken(RunOps(logs)) == [(Procs, Write)] + if logs then [(Log, Write)] else []
  {
    FewTake(RunOps(logs));
  }

  function TakenAt(ops: seq<Op>, k: nat): seq<(Lock, Mode)> {
    if k < |ops| && ops[k].Acquire? then [(ops[k].lock, ops[k].mode)] else []
  }

  function Drop(ops: seq<Op>, k: nat): seq<Op> {
    if k <= |ops| then ops[k..] else []
  }

  lemma TakenFrom(ops: seq<Op>, k: nat)
    ensures Taken(Drop(ops, k)) == TakenAt(ops, k) + Taken(Drop(ops, k + 1))
  {
    if k < |ops| {
      TakesFirst(ops[k], ops[k + 1..]);
      assert [ops[k]] + ops[k + 1..] == ops[k..];
    }
  }

  /** The operations one by one, for lists this short. */
  lemma FewTake(ops: seq<Op>)
    requires |ops| <= 5
    ensures Taken(ops) ==
              TakenAt(ops, 0) + (TakenAt(ops, 1) + (TakenAt(ops, 2) + (TakenAt(ops, 3) + TakenAt(ops, 4))))
  {
    DropEnds(ops);
    TakenFrom(ops, 0);
    TakenFrom(ops, 1);
    TakenFrom(ops, 2);
    TakenFrom(ops, 3);
    LastTaken(ops);
    hide Taken, TakenAt, Drop;
  }

  lemma DropEnds(ops: seq<Op>)
    ensures Drop(ops, 0) == ops
  {
  }

  lemma LastTaken(ops: seq<Op>)
    requires |ops| <= 5
    ensures Taken(Drop(ops, 4)) == TakenAt(ops, 4)
  {
    TakenFrom(ops, 4);
    assert Drop(ops, 5) == [];
  }

  // ---------------------------------------------------------------- no deadlock

  /** `t` is queued for a lock that `u` holds, or that `u` asked for earlier. */
  ghost predicate WaitsFor(s: Sys, t: Tid, u: Tid) {
    Queued(s, t) && u in s.tasks &&
    var l := s.tasks[t].todo[0].lock;
    || l in s.tasks[u].held
    || exists j, k :: 0 <= j < k < |Queue(s, l)| && Queue(s, l)[j] == u && Queue(s, l)[k] == t
  }

  /** `u` waits for a higher lock than `t` does, or ahead of it in the same queue. */
  ghost predicate Ahead(s: Sys, t: Tid, u: Tid) {
    Queued(s, t) && Queued(s, u) &&
    var l, m := s.tasks[t].todo[0].lock, s.tasks[u].todo[0].lock;
    || Rank(l) < Rank(m)
    || (l == m && exists j, k :: 0 <= j < k < |Queue(s, l)| && Queue(s, l)[j] == u && Queue(s, l)[k] == t)
  }

  lemma WaitIsAhead(s: Sys, t: Tid, u: Tid)
    requires Inv(s) && WaitsFor(s, t, u) && Queued(s, u)
    ensures Ahead(s, t, u)
  {
    var l := s.tasks[t].todo[0].lock;
    assert Ranked(s.tasks[u].held, s.tasks[u].todo);
    if l !in s.tasks[u].held {
      var j, k :| 0 <= j < k < |Queue(s, l)| && Queue(s, l)[j] == u && Queue(s, l)[k] == t;
      assert Wants(s, Queue(s, l)[j], l);
    }
  }

  lemma AheadTrans(s: Sys, t: Tid, u: Tid, v: Tid)
    requires Inv(s) && Ahead(s, t, u) && Ahead(s, u, v)
    ensures Ahead(s, t, v)
  {
    var l, m, n := s.tasks[t].todo[0].lock, s.tasks[u].todo[0].lock, s.tasks[v].todo[0].lock;
    if l == m == n {
      var j, k :| 0 <= j < k < |Queue(s, l)| && Queue(s, l)[j] == u && Queue(s, l)[k] == t;
      var i, j' :| 0 <= i < j' < |Queue(s, l)| && Queue(s, l)[i] == v && Queue(s, l)[j'] == u;
      assert j == j';
    }
  }

  lemma {:induction false} ChainIsAhead(s: Sys, chain: seq<Tid>)
    requires Inv(s) && |chain| >= 2 && Queued(s, chain[|chain| - 1])
    requires forall k :: 0 <= k < |chain| - 1 ==> WaitsFor(s, chain[k], chain[k + 1])
    ensures Ahead(s, chain[0], chain[|chain| - 1])
  {
    assert WaitsFor(s, chain[|chain| - 2], chain[|chain| - 2 + 1]);
    WaitIsAhead(s, chain[|chain| - 2], chain[|chain| - 1]);
    if |chain| > 2 {
      var front := chain[..|chain| - 1];
      ChainIsAhead(s, front);
      AheadTrans(s, chain[0], chain[|chain| - 2], chain[|chain| - 1]);
    }
  }

  /** No reachable state has a cycle of tasks each waiting for a lock of the next. */
  lemma NoWaitCycle(ls: seq<Label>, chain: seq<Tid>)
    requires Exec(ls).Some? && |chain| >= 2 && chain[0] == chain[|chain| - 1]
    ensures !(forall k :: 0 <= k < |chain| - 1 ==> WaitsFor(Exec(ls).value, chain[k], chain[k + 1]))
  {
    RunInv(ls);
    var s := Exec(ls).value;
    hide Exec;
    if forall k :: 0 <= k < |chain| - 1 ==> WaitsFor(s, chain[k], chain[k + 1]) {
      assert WaitsFor(s, chain[0], chain[0 + 1]);
      ChainIsAhead(s, chain);
    }
  }

  /** A queued task with nobody queued for a higher lock. */
  lemma {:induction false} Highest(s: Sys, t: Tid, bound: nat) returns (u: Tid)
    requires Queued(s, t) && bound == 5 - Rank(s.tasks[t].todo[0].lock)
    ensures Queued(s, u) && forall v :: Queued(s, v) ==> Rank(s.tasks[v].todo[0].lock) <= Rank(s.tasks[u].todo[0].lock)
    decreases bound
  {
    u := t;
    if v :| Queued(s, v) && Rank(s.tasks[v].todo[0].lock) > Rank(s.tasks[t].todo[0].lock) {
      u := Highest(s, v, 5 - Rank(s.tasks[v].todo[0].lock));
    }
  }

  /** And while any task waits for a lock, some task can go on that is neither parked nor new. */
  lemma SomeoneMoves(ls: seq<Label>, t: Tid)
    requires Exec(ls).Some? && Queued(Exec(ls).value, t)
    ensures exists l :: Enabled(Exec(ls).value, l) && !l.Begin?
              && !(l.Go? && Exec(ls).value.tasks[l.t].todo[0].Park?)
  {
    RunInv(ls);
    var s := Exec(ls).value;
    hide Exec;
    var u := Highest(s, t, 5 - Rank(s.tasks[t].todo[0].lock));
    var lock := s.tasks[u].todo[0].lock;
    var h := Queue(s, lock)[0];
    assert Wants(s, Queue(s, lock)[0], lock);
    if Available(s, lock, s.tasks[h].todo[0].mode) {
      assert Enabled(s, Grant(h));
    } else {
      var v :| v in s.tasks && lock in s.tasks[v].held && !Compatible(s.tasks[v].held[lock], s.tasks[h].todo[0].mode);
      HolderMoves(s, lock, v);
    }
  }

  lemma HolderMoves(s: Sys, lock: Lock, v: Tid)
    requires Inv(s) && v in s.tasks && lock in s.tasks[v].held
    requires forall w :: Queued(s, w) ==> Rank(s.tasks[w].todo[0].lock) <= Rank(lock)
    ensures exists l :: Enabled(s, l) && !l.Begin? && !(l.Go? && s.tasks[l.t].todo[0].Park?)
  {
    var x := s.tasks[v];
    assert Ranked(x.held, x.todo);
    match x.todo[0]
    case Acquire(l, m) =>
      assert !Queued(s, v);
      assert Enabled(s, Ask(v));
    case Release(l) => assert Enabled(s, Free(v));
    case Pause => assert Enabled(s, Go(v));
    case Park =>
  }

  // ---------------------------------------------------------------- a task alone gets through

  /** Nobody but `t` holds a lock or waits for one. */
  ghost predicate Quiet(s: Sys, t: Tid) {
    && (forall l :: Queue(s, l) == [])
    && (forall u :: u in s.tasks && u != t ==> s.tasks[u].held == map[])
  }

  lemma Take(ls: seq<Label>, s: Sys, l: Label) returns (ls': seq<Label>, s': Sys)
    requires Exec(ls) == Some(s) && Enabled(s, l)
    ensures Exec(ls') == Some(s') && s' == Apply(s, l)
  {
    assert (ls + [l])[..|ls|] == ls;
    ls', s' := ls + [l], Apply(s, l);
  }

  lemma OneLockTaken(ls0: seq<Label>, s0: Sys, t: Tid) returns (ls: seq<Label>, s: Sys)
    requires Exec(ls0) == Some(s0) && t in s0.tasks && s0.tasks[t].todo != [] && Quiet(s0, t)
    requires Ranked(s0.tasks[t].held, s0.tasks[t].todo) && s0.tasks[t].todo[0].Acquire?
    ensures Exec(ls) == Some(s) && Quiet(s, t) && t in s.tasks && s.tasks[t].todo == s0.tasks[t].todo[1..]
    ensures Ranked(s.tasks[t].held, s.tasks[t].todo)
    ensures forall u :: u in s0.tasks && u != t ==> u in s.tasks && s.tasks[u] == s0.tasks[u]
  {
    hide Exec;
    var l, m := s0.tasks[t].todo[0].lock, s0.tasks[t].todo[0].mode;
    assert l !in s0.tasks[t].held;
    assert Queue(s0, l) == [];
    ls, s := Take(ls0, s0, Ask(t));
    assert Queue(s, l) == [t] && Available(s, l, m);
    ls, s := Take(ls, s, Grant(t));
    forall k ensures Queue(s, k) == [] { assert Queue(s0, k) == []; }
  }

  /** The next operation of a task alone, a lock taken in two steps. */
  lemma OneOp(ls0: seq<Label>, s0: Sys, t: Tid) returns (ls: seq<Label>, s: Sys)
    requires Exec(ls0) == Some(s0) && t in s0.tasks && s0.tasks[t].todo != [] && Quiet(s0, t)
    requires Ranked(s0.tasks[t].held, s0.tasks[t].todo)
    ensures Exec(ls) == Some(s) && Quiet(s, t) && t in s.tasks && s.tasks[t].todo == s0.tasks[t].todo[1..]
    ensures Ranked(s.tasks[t].held, s.tasks[t].todo)
    ensures forall u :: u in s0.tasks && u != t ==> u in s.tasks && s.tasks[u] == s0.tasks[u]
  {
    hide Exec;
    match s0.tasks[t].todo[0]
    case Acquire(l, m) => ls, s := OneLockTaken(ls0, s0, t);
    case Release(l) =>
      ls, s := Take(ls0, s0, Free(t));
      forall k ensures Queue(s, k) == [] { assert Queue(s0, k) == []; }
    case _ =>
      ls, s := Take(ls0, s0, Go(t));
      forall k ensures Queue(s, k) == [] { assert Queue(s0, k) == []; }
  }

  lemma {:induction false} ToTheEnd(ls0: seq<Label>, s0: Sys, t: Tid) returns (ls: seq<Label>, s: Sys)
    requires Exec(ls0) == Some(s0) && t in s0.tasks && Quiet(s0, t) && Ranked(s0.tasks[t].held, s0.tasks[t].todo)
    ensures Exec(ls) == Some(s) && Quiet(s, t) && t in s.tasks && s.tasks[t] == Task(map[], [])
    ensures forall u :: u in s0.tasks && u != t ==> u in s.tasks && s.tasks[u] == s0.tasks[u]
    decreases |s0.tasks[t].todo|
  {
    if s0.tasks[t].todo == [] {
      ls, s := ls0, s0;
    } else {
      hide Exec, Ranked, Quiet;
      var ls1, s1 := OneOp(ls0, s0, t);
      ls, s := ToTheEnd(ls1, s1, t);
    }
  }

  /** From every reachable state in which no lock is held or waited for, a new task gets through any sequence
      of sections, and leaves no lock held or waited for. */
  lemma RunsAlone(ls0: seq<Label>, t: Tid, cs: seq<Section>) returns (ls: seq<Label>)
    requires Exec(ls0).Some? && t !in Exec(ls0).value.tasks && Quiet(Exec(ls0).value, t)
    ensures Exec(ls).Some? && t in Exec(ls).value.tasks && Exec(ls).value.tasks[t] == Task(map[], [])
    ensures Quiet(Exec(ls).value, t)
  {
    ProgramRanked(cs);
    hide Exec, Ranked;
    var s0 := Exec(ls0).value;
    var ls1, s1 := Take(ls0, s0, Begin(t, cs));
    forall l ensures Queue(s1, l) == [] { assert Queue(s0, l) == []; }
    var s;
    ls, s := ToTheEnd(ls1, s1, t);
  }
}
