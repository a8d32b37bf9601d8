/** Runs that show where the protocol's promises end: what one would expect and does not hold. */
module Escapes {
  import opened Basics
  import opened Service
  import opened Watch
  import opened Supervision

  lemma Take(ls: seq<Label>, s: Sys, l: Label) returns (ls': seq<Label>, s': Sys)
    requires Exec(ls) == Some(s) && Enabled(s, l)
    ensures Exec(ls') == Some(s') && s' == Apply(s, l) && ls' == ls + [l]
  {
    assert (ls + [l])[..|ls|] == ls;
    ls', s' := ls + [l], Apply(s, l);
  }

  /** One monitored service and its first watcher. */
  function One(n: Name, v: Svc, pc: Pc): Sys {
    Init().(table := map[n := 0], svc := map[0 := Inst(n, v)], ws := map[0 := Watcher(0, pc, 0)])
  }

  lemma Monitored(n: Name, c: Config) returns (ls: seq<Label>)
    ensures Exec(ls) == Some(One(n, New(c), Entry))
  {
    var s;
    ls, s := Take([], Init(), Api(MonitorFlag(n, c)));
    ls, s := Take(ls, s, Api(MonitorInsert(n, c, 0, 0)));
    assert s == One(n, New(c), Entry);
  }

  lemma Gated(n: Name, c: Config) returns (ls: seq<Label>)
    ensures Exec(ls) == Some(One(n, Scheduled(New(c)), Top))
  {
    ls := Monitored(n, c);
    var s;
    ls, s := Take(ls, One(n, New(c), Entry), Sections(0, Gate));
    assert s == One(n, Scheduled(New(c)), Top);
  }

  lemma Leaving(n: Name, c: Config) returns (ls: seq<Label>)
    ensures Exec(ls) == Some(One(n, Scheduled(New(c)).(target := Down), Releasing).(hist := [Lower(0, 0)]))
  {
    ls := Gated(n, c);
    var s;
    ls, s := Take(ls, One(n, Scheduled(New(c)), Top), Api(Stop(n)));
    assert s == One(n, Scheduled(New(c)).(target := Down), Top).(hist := [Lower(0, 0)]);
    ls, s := Take(ls, s, Turns(0, LoopTop));
    assert s == One(n, Scheduled(New(c)).(target := Down), Releasing).(hist := [Lower(0, 0)]);
  }

  /** Nobody is working on instance `i` and nobody is about to. */
  predicate Abandoned(s: Sys, i: Id) {
    && (forall w :: w in s.ws && s.ws[w].inst == i ==> s.ws[w].pc.Gone?)
    && s.monitors == multiset{} && s.starts == multiset{} && s.started == multiset{}
  }

  lemma RaisedAgain(n: Name, c: Config) returns (ls: seq<Label>, s: Sys)
    ensures Exec(ls) == Some(s) && s.table == map[n := 0] && s.svc == map[0 := Inst(n, Scheduled(New(c)))]
    ensures s.ws == map[0 := Watcher(0, Releasing, 0)]
    ensures s.monitors == multiset{} && s.starts == multiset{} && s.started == multiset{n}
  {
    ls := Leaving(n, c);
    s := One(n, Scheduled(New(c)).(target := Down), Releasing).(hist := [Lower(0, 0)]);
    ls, s := Take(ls, s, Api(StartFlag(n)));
    ls, s := Take(ls, s, Api(StartTarget(n)));
    assert s.svc == map[0 := Inst(n, Scheduled(New(c)))];
  }

  lemma Restarted(n: Name, c: Config) returns (ls: seq<Label>, s: Sys)
    ensures Exec(ls) == Some(s) && s.table == map[n := 0] && s.svc == map[0 := Inst(n, Scheduled(New(c)))]
    ensures s.ws == map[0 := Watcher(0, Releasing, 0), 1 := Watcher(0, Entry, 0)]
    ensures s.monitors == multiset{} && s.starts == multiset{} && s.started == multiset{}
  {
    ls, s := RaisedAgain(n, c);
    ls, s := Take(ls, s, Api(StartWatch(n, 1)));
  }

  /** A `start` that lands between the loop's `break` and the section that clears `scheduled` is lost:
      the target is Up, nothing failed or finished, and no watcher is left. */
  lemma LostStart(n: Name, c: Config) returns (ls: seq<Label>)
    ensures Exec(ls).Some?
    ensures var s := Exec(ls).value;
            s.table == map[n := 0] && s.svc == map[0 := Inst(n, New(c))] && Abandoned(s, 0)
  {
    var s := Init();
    ls, s := Restarted(n, c);
    ls, s := Take(ls, s, Sections(1, Gate));
    ls, s := Take(ls, s, Sections(0, Release));
    assert s.svc == map[0 := Inst(n, New(c))];
  }

  /** A service without dependencies, checked and about to be spawned. */
  lemma Checked(n: Name, c: Config) returns (ls: seq<Label>)
    requires c.after == []
    ensures Exec(ls) == Some(One(n, Scheduled(New(c)), Ready([])))
  {
    ls := Gated(n, c);
    var s, v := One(n, Scheduled(New(c)), Top), Scheduled(New(c));
    ls, s := Take(ls, s, Turns(0, LoopTop));
    ls, s := Take(ls, s, Turns(0, MakeNotified));
    assert s == One(n, v, Check(0, []));
    ls, s := Take(ls, s, Turns(0, ReadDep));
    assert s == One(n, v, Ready([]));
  }

  /** A service that is not active when `power` takes its snapshot gets no kill task, keeps its target
      Up, and is spawned although the system is shutting down. */
  lemma SpawnedDuringShutdown(n: Name, c: Config, p: Pid) returns (ls: seq<Label>)
    requires c.after == [] && p != 0
    ensures Exec(ls).Some? && Exec(ls).value.hist == [Shut, Spawn(0, n, [], p)] && Exec(ls).value.kills == map[]
    ensures Exec(ls).value.svc == map[0 := Inst(n, SpawnedAs(Scheduled(New(c)), p))]
  {
    ls := Checked(n, c);
    var s := One(n, Scheduled(New(c)), Ready([]));
    ls, s := Take(ls, s, Shuts(0, SetFlag));
    assert s == One(n, Scheduled(New(c)), Ready([])).(flag := true, hist := [Shut]);
    ls, s := Take(ls, s, Sections(0, SpawnSection(Some(p))));
    assert s.svc == map[0 := Inst(n, SpawnedAs(Scheduled(New(c)), p))];
    assert s.hist == [Shut, Spawn(0, n, [], p)];
  }

  /** What `RaisedDuringShutdown` reads of a state. */
  predicate Stage(s: Sys, n: Name, v: Svc, k: KillPc) {
    && s.table == map[n := 0] && s.svc == map[0 := Inst(n, v)] && s.flag
    && s.kills.Keys == {0} && s.kills[0].name == n && s.kills[0].pc == k
    && s.kills[0].stopped == if k.ToStop? then None else Some(0)
  }

  /** A running service, and a `start` past its flag check. */
  lemma StartPending(n: Name, c: Config, p: Pid) returns (ls: seq<Label>, s: Sys)
    requires c.after == [] && p != 0
    ensures Exec(ls) == Some(s) && s.table == map[n := 0] && s.svc == map[0 := Inst(n, SpawnedAs(Scheduled(New(c)), p))]
    ensures s.kills == map[] && s.starts == multiset{n}
  {
    ls := Checked(n, c);
    s := One(n, Scheduled(New(c)), Ready([]));
    ls, s := Take(ls, s, Sections(0, SpawnSection(Some(p))));
    assert s.svc == map[0 := Inst(n, SpawnedAs(Scheduled(New(c)), p))];
    ls, s := Take(ls, s, Api(StartFlag(n)));
  }

  /** Then a shutdown comes to stop the service. */
  lemma StopPending(n: Name, c: Config, p: Pid) returns (ls: seq<Label>, s: Sys)
    requires c.after == [] && p != 0
    ensures Exec(ls) == Some(s) && Stage(s, n, SpawnedAs(Scheduled(New(c)), p), ToStop) && s.starts == multiset{n}
  {
    ls, s := StartPending(n, c, p);
    ls, s := Take(ls, s, Shuts(0, SetFlag));
    ls, s := Take(ls, s, Shuts(0, KillTask(n)));
  }

  /** It does, and the `start` sets the target again. */
  lemma StartAfterStop(n: Name, c: Config, p: Pid) returns (ls: seq<Label>, s: Sys)
    requires c.after == [] && p != 0
    ensures Exec(ls) == Some(s) && Stage(s, n, SpawnedAs(Scheduled(New(c)), p), ToWait)
  {
    var v := SpawnedAs(Scheduled(New(c)), p);
    ls, s := StopPending(n, c, p);
    ls, s := Take(ls, s, Shuts(0, KillStop));
    assert Stage(s, n, v.(target := Down), ToWait);
    ls, s := Take(ls, s, Api(StartTarget(n)));
    assert Stage(s, n, v, ToWait);
  }

  /** A `start` that read the flag before it was set can write its target after the kill task's `stop`:
      a service active at the snapshot is posted to the death channel with its target Up. */
  lemma RaisedDuringShutdown(n: Name, c: Config, p: Pid) returns (ls: seq<Label>)
    requires c.after == [] && p != 0
    ensures Exec(ls).Some? && Stage(Exec(ls).value, n, SpawnedAs(Scheduled(New(c)), p), Posted)
    ensures SpawnedAs(Scheduled(New(c)), p).target.Up?
  {
    var s, v := Init(), SpawnedAs(Scheduled(New(c)), p);
    ls, s := StartAfterStop(n, c, p);
    ls, s := Take(ls, s, Shuts(0, KillWaited));
    assert Stage(s, n, v, ToCheck);
    ls, s := Take(ls, s, Shuts(0, KillStatus));
    assert Stage(s, n, v, ToKill);
    ls, s := Take(ls, s, Shuts(0, KillSignal));
    assert Stage(s, n, v, ToPost);
    ls, s := Take(ls, s, Shuts(0, KillPost));
  }

  // ---------------------------------------------------------------- a name used again too early

  /** A watcher that found its dependency `x` missing and is about to write Blocked. */
  lemma Unsatisfied(n: Name, x: Name, c: Config) returns (ls: seq<Label>)
    requires c.after == [x] && x != n
    ensures Exec(ls) == Some(One(n, Scheduled(New(c)), Unmet(0, 0)))
  {
    ls := Gated(n, c);
    var s, v := One(n, Scheduled(New(c)), Top), Scheduled(New(c));
    ls, s := Take(ls, s, Turns(0, LoopTop));
    ls, s := Take(ls, s, Turns(0, MakeNotified));
    assert s == One(n, v, Check(0, []));
    ls, s := Take(ls, s, Turns(0, ReadDep));
    assert s == One(n, v, Unmet(0, 0));
  }

  /** Instance 1 of the name beside the forgotten instance 0, whose watcher still has to write Blocked. */
  predicate Two(s: Sys, n: Name, u: Svc, v: Svc, pc: Pc) {
    && s.table == map[n := 1] && s.svc == map[0 := Inst(n, u), 1 := Inst(n, v)] && s.epoch == 0
    && s.ws == map[0 := Watcher(0, Unmet(0, 0), 0),
                     1 := Watcher(1, pc, if pc.Waiting? && !v.config.oneShot then 1 else 0)]
  }

  lemma MonitoredAgain(n: Name, x: Name, c: Config, d: Config) returns (ls: seq<Label>, s: Sys)
    requires c.after == [x] && x != n
    ensures Exec(ls) == Some(s) && Two(s, n, Scheduled(New(c)).(target := Down), New(d), Entry)
  {
    ls := Unsatisfied(n, x, c);
    var u := Scheduled(New(c)).(target := Down);
    s := One(n, Scheduled(New(c)), Unmet(0, 0));
    ls, s := Take(ls, s, Api(Stop(n)));
    assert s.svc == map[0 := Inst(n, u)];
    ls, s := Take(ls, s, Api(Watch.Forget(n)));
    assert s.table == map[];
    ls, s := Take(ls, s, Api(MonitorFlag(n, d)));
    ls, s := Take(ls, s, Api(MonitorInsert(n, d, 1, 1)));
    assert Two(s, n, u, New(d), Entry);
  }

  lemma CheckedAgain(n: Name, x: Name, c: Config, d: Config) returns (ls: seq<Label>, s: Sys)
    requires c.after == [x] && x != n && d.after == []
    ensures Exec(ls) == Some(s) && Two(s, n, Scheduled(New(c)).(target := Down), Scheduled(New(d)), Ready([]))
  {
    var u, v := Scheduled(New(c)).(target := Down), Scheduled(New(d));
    ls, s := MonitoredAgain(n, x, c, d);
    ls, s := Take(ls, s, Sections(1, Gate));
    assert Two(s, n, u, v, Top);
    ls, s := Take(ls, s, Turns(1, LoopTop));
    ls, s := Take(ls, s, Turns(1, MakeNotified));
    assert Two(s, n, u, v, Check(0, []));
    ls, s := Take(ls, s, Turns(1, ReadDep));
  }

  lemma SpawnedAgain(n: Name, x: Name, c: Config, d: Config, p: Pid) returns (ls: seq<Label>, s: Sys)
    requires c.after == [x] && x != n && d.after == [] && p != 0
    ensures Exec(ls) == Some(s)
        && Two(s, n, Scheduled(New(c)).(target := Down), SpawnedAs(Scheduled(New(d)), p), Waiting(p, None))
  {
    ls, s := CheckedAgain(n, x, c, d);
    ls, s := Take(ls, s, Sections(1, SpawnSection(Some(p))));
  }

  /** State writes go by name. When a name is forgotten and monitored again while the old watcher has yet
      to write Blocked, the write hits the new instance, whose process is running. */
  lemma StaleBlocked(n: Name, x: Name, c: Config, d: Config, p: Pid) returns (ls: seq<Label>)
    requires c.after == [x] && x != n && d.after == [] && p != 0
    ensures Exec(ls).Some? && 1 in Exec(ls).value.svc
    ensures Exec(ls).value.svc[1].v.pid == p && Exec(ls).value.svc[1].v.state.Blocked?
  {
    var s := Init();
    ls, s := SpawnedAgain(n, x, c, d, p);
    ls, s := Take(ls, s, Names(0, SetBlocked));
  }

  // ---------------------------------------------------------------- a dependency that has exited with 0

  /** `b` lists `a`; neither is a one-shot. Nobody has notified or owes it. */
  predicate Pair(s: Sys, a: Name, va: Svc, x: Watcher, b: Name, vb: Svc, y: Watcher) {
    && a != b && a in s.table && s.table[a] == 0 && b in s.table && s.table[b] == 1
    && s.svc.Keys == {0, 1} && s.svc[0] == Inst(a, va) && s.svc[1] == Inst(b, vb)
    && s.ws.Keys == {0, 1} && s.ws[0] == x && s.ws[1] == y
    && s.epoch == 0 && s.owed == multiset{}
  }

  lemma BothMonitored(a: Name, ca: Config, b: Name, cb: Config) returns (ls: seq<Label>, s: Sys)
    requires a != b
    ensures Exec(ls) == Some(s) && Pair(s, a, New(ca), Watcher(0, Entry, 0), b, New(cb), Watcher(1, Entry, 0))
  {
    ls := Monitored(a, ca);
    s := One(a, New(ca), Entry);
    ls, s := Take(ls, s, Api(MonitorFlag(b, cb)));
    ls, s := Take(ls, s, Api(MonitorInsert(b, cb, 1, 1)));
  }

  /** The watcher of `b` is in its check, with `a` still to be looked at. */
  lemma SecondChecks(a: Name, ca: Config, b: Name, cb: Config) returns (ls: seq<Label>, s: Sys)
    requires a != b
    ensures Exec(ls) == Some(s)
    ensures Pair(s, a, New(ca), Watcher(0, Entry, 0), b, Scheduled(New(cb)), Watcher(1, Check(0, []), 0))
  {
    var va, x, vb := New(ca), Watcher(0, Entry, 0), Scheduled(New(cb));
    ls, s := BothMonitored(a, ca, b, cb);
    ls, s := Take(ls, s, Sections(1, Gate));
    assert Pair(s, a, va, x, b, vb, Watcher(1, Top, 0));
    ls, s := Take(ls, s, Turns(1, LoopTop));
    ls, s := Take(ls, s, Turns(1, MakeNotified));
  }

  /** The watcher of `a` goes on, whatever the watcher of `b` does. */
  lemma FirstReady(ls0: seq<Label>, s0: Sys, a: Name, ca: Config, b: Name, vb: Svc, y: Watcher)
      returns (ls: seq<Label>, s: Sys)
    requires Exec(ls0) == Some(s0) && Pair(s0, a, New(ca), Watcher(0, Entry, 0), b, vb, y) && ca.after == []
    ensures Exec(ls) == Some(s) && Pair(s, a, Scheduled(New(ca)), Watcher(0, Ready([]), 0), b, vb, y)
  {
    var va := Scheduled(New(ca));
    ls, s := Take(ls0, s0, Sections(0, Gate));
    assert Pair(s, a, va, Watcher(0, Top, 0), b, vb, y);
    ls, s := Take(ls, s, Turns(0, LoopTop));
    ls, s := Take(ls, s, Turns(0, MakeNotified));
    assert Pair(s, a, va, Watcher(0, Check(0, []), 0), b, vb, y);
    ls, s := Take(ls, s, Turns(0, ReadDep));
  }

  lemma FirstSpawns(ls0: seq<Label>, s0: Sys, a: Name, ca: Config, b: Name, vb: Svc, y: Watcher, p: Pid)
    returns (ls: seq<Label>, s: Sys)
    requires Exec(ls0) == Some(s0) && Pair(s0, a, New(ca), Watcher(0, Entry, 0), b, vb, y)
    requires ca.after == [] && !ca.oneShot && p != 0 && !y.pc.Waiting?
    ensures Exec(ls) == Some(s)
        && Pair(s, a, SpawnedAs(Scheduled(New(ca)), p), Watcher(0, Waiting(p, None), 1), b, vb, y)
  {
    ls, s := FirstReady(ls0, s0, a, ca, b, vb, y);
    ls, s := Take(ls, s, Sections(0, SpawnSection(Some(p))));
  }

  /** The process exits with 0, and its watcher records that and goes to sleep. */
  lemma FirstExits(ls0: seq<Label>, s0: Sys, a: Name, v: Svc, b: Name, vb: Svc, y: Watcher, p: Pid)
    returns (ls: seq<Label>, s: Sys)
    requires Exec(ls0) == Some(s0) && Pair(s0, a, v, Watcher(0, Waiting(p, None), 1), b, vb, y) && a != b
        && !v.config.oneShot
    ensures Exec(ls) == Some(s) && Pair(s, a, Finished(v, ExitCode(0)), Watcher(0, Sleeping, 0), b, vb, y)
    ensures s.hist == s0.hist + [Exit(0, ExitCode(0))]
  {
    ls, s := Take(ls0, s0, Sections(0, ChildExit(ExitCode(0))));
    assert Pair(s, a, v, Watcher(0, Waiting(p, Some(ExitCode(0))), 1), b, vb, y);
    ls, s := Take(ls, s, Turns(0, Abort(true)));
    assert Pair(s, a, v, Watcher(0, Reaped(p, ExitCode(0)), 0), b, vb, y);
    ls, s := Take(ls, s, Sections(0, ExitSection));
  }

  /** A dependency that is no one-shot need not be running: `b` is spawned although the process of `a` has
      exited with status 0 and none has followed it. */
  lemma SpawnedOnExited(a: Name, ca: Config, b: Name, cb: Config, p: Pid, q: Pid) returns (ls: seq<Label>)
    requires a != b && ca.after == [] && !ca.oneShot && cb.after == [a] && p != 0 && q != 0
    ensures Exec(ls).Some? && 0 in Exec(ls).value.svc
    ensures var s := Exec(ls).value;
            && |s.hist| >= 2 && s.hist[|s.hist| - 2..] == [Exit(0, ExitCode(0)), Spawn(1, b, [0], q)]
            && s.svc[0].name == a && s.svc[0].v.pid == 0 && s.svc[0].v.state.Success?
  {
    var vb := Scheduled(New(cb));
    var s := Init();
    ls, s := SecondChecks(a, ca, b, cb);
    ls, s := FirstSpawns(ls, s, a, ca, b, vb, Watcher(1, Check(0, []), 0), p);
    var v := SpawnedAs(Scheduled(New(ca)), p);
    ls, s := FirstExits(ls, s, a, v, b, vb, Watcher(1, Check(0, []), 0), p);
    ls := ThenSpawn(ls, s, a, Finished(v, ExitCode(0)), b, vb, q);
  }

  lemma ThenSpawn(ls0: seq<Label>, s0: Sys, a: Name, v: Svc, b: Name, vb: Svc, q: Pid) returns (ls: seq<Label>)
    requires Exec(ls0) == Some(s0) && Pair(s0, a, v, Watcher(0, Sleeping, 0), b, vb, Watcher(1, Check(0, []), 0))
        && a != b
    requires vb.config.after == [a] && v.state.Success? && Satisfies(v) && vb.target.Up? && q != 0
    ensures Exec(ls).Some? && Exec(ls).value.hist == s0.hist + [Spawn(1, b, [0], q)]
    ensures 0 in Exec(ls).value.svc && Exec(ls).value.svc[0] == Inst(a, v)
  {
    var s := s0;
    assert vb.config.after[0] == a && Satisfied(s0.table, s0.svc, a);
    ls, s := Take(ls0, s0, Turns(1, ReadDep));
    assert s.ws[1].pc.Check? && s.ws[1].pc.seen == [0];
    assert Pair(s, a, v, Watcher(0, Sleeping, 0), b, vb, Watcher(1, Check(0, [0]), 0));
    ls, s := Take(ls, s, Turns(1, ReadDep));
    assert Pair(s, a, v, Watcher(0, Sleeping, 0), b, vb, Watcher(1, Ready([0]), 0));
    ls, s := Take(ls, s, Sections(1, SpawnSection(Some(q))));
  }

  /** `b` is parked for `a`, which runs. */
  lemma SecondParks(a: Name, ca: Config, b: Name, cb: Config, p: Pid) returns (ls: seq<Label>, s: Sys)
    requires a != b && ca.after == [] && !ca.oneShot && cb.after == [a] && p != 0
    ensures Exec(ls) == Some(s)
    ensures Pair(s, a, SpawnedAs(Scheduled(New(ca)), p), Watcher(0, Waiting(p, None), 1),
                 b, Scheduled(New(cb)).(state := Blocked), Watcher(1, Parked(0, 0), 0))
  {
    ls, s := SecondChecks(a, ca, b, cb);
    ls, s := Take(ls, s, Turns(1, ReadDep));
    assert Pair(s, a, New(ca), Watcher(0, Entry, 0), b, Scheduled(New(cb)), Watcher(1, Unmet(0, 0), 0));
    var vb := Scheduled(New(cb)).(state := Blocked);
    ls, s := Take(ls, s, Names(1, SetBlocked));
    assert Pair(s, a, New(ca), Watcher(0, Entry, 0), b, vb, Watcher(1, Parked(0, 0), 0));
    ls, s := FirstSpawns(ls, s, a, ca, b, vb, Watcher(1, Parked(0, 0), 0), p);
  }

  /** And such a success wakes nobody: the watcher of `b` stays parked, all its dependencies are satisfied,
      and no test loop and no one-shot owes a notification. */
  lemma ParkedOnSuccess(a: Name, ca: Config, b: Name, cb: Config, p: Pid) returns (ls: seq<Label>)
    requires a != b && ca.after == [] && !ca.oneShot && cb.after == [a] && p != 0
    ensures Exec(ls).Some?
    ensures var s := Exec(ls).value;
            && 1 in s.ws && s.ws[1].inst in s.svc && s.svc[s.ws[1].inst].v.config == cb
              && s.ws[1].pc == Parked(s.epoch, 0)
            && Satisfied(s.table, s.svc, a) && s.owed == multiset{} && (forall w :: w in s.ws ==> !s.ws[w].pc.Owing?)
            && !Enabled(s, Turns(1, Wake))
  {
    var s := Init();
    ls, s := SecondParks(a, ca, b, cb, p);
    ls, s := FirstExits(ls, s, a, SpawnedAs(Scheduled(New(ca)), p), b, Scheduled(New(cb)).(state := Blocked),
                        Watcher(1, Parked(0, 0), 0), p);
  }
}
