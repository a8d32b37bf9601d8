/** What watchers, kill tasks and calls get done by their own steps, from any reachable state. Every result
    names the whole state they end in. */
module Progress {
  import opened Basics
  import opened Service
  import opened Watch
  import opened Supervision
  import Trace
  import opened WatchRuns
  import opened Limits

  /** A step of watcher `w` itself, or the death of its process. */
  predicate Own(w: Wid, l: Label) {
    (l.Turns? && l.w == w) || (l.Sections? && l.w == w)
  }

  /** Every dependency of the watcher's instance is in the table, and Running if it is no one-shot, or in
      Success. */
  predicate Ripe(s: Sys, w: Wid)
    requires At(s, w)
  {
    forall d :: 0 <= d < |InstOf(s, w).v.config.after| ==> RipeName(s, InstOf(s, w).v.config.after[d])
  }

  predicate RipeName(s: Sys, n: Name) {
    && n in s.table && s.table[n] in s.svc
    && var v := s.svc[s.table[n]].v;
       (v.state == Running && !v.config.oneShot) || v.state == Success
  }

  /** How many steps a watcher is from its spawn, if nothing is in its way. */
  function Distance(pc: Pc, after: nat): nat {
    match pc
    case Entry => after + 5
    case Sleeping => after + 5
    case Parked(_, _) => after + 4
    case Top => after + 4
    case Capture => after + 3
    case Check(_, seen) => if |seen| <= after then after - |seen| + 2 else 0
    case _ => 1
  }

  /** At these places nothing is in its way: an open gate, anywhere on the way round the loop, or parked on
      a future that has fired. */
  predicate Unhindered(s: Sys, w: Wid)
    requires At(s, w)
  {
    match s.ws[w].pc
    case Entry => !InstOf(s, w).v.scheduled
    case Sleeping => true
    case Parked(e, _) => e < s.epoch
    case Top => true
    case Capture => true
    case Check(_, seen) => |seen| <= |InstOf(s, w).v.config.after|
    case Ready(_) => true
    case _ => false
  }

  /** `s'` is `s` after watcher `w` has spawned process `p`. */
  ghost predicate HasSpawned(s: Sys, s': Sys, w: Wid, p: Pid)
    requires At(s, w)
  {
    var i, v := s.ws[w].inst, InstOf(s, w).v;
    exists deps: seq<Id> ::
      && |deps| >= |v.config.after|
      && s'.hist == s.hist + [Spawn(i, InstOf(s, w).name, deps, p)]
      && s'.svc == s.svc[i := Inst(InstOf(s, w).name,
                                   Svc(v.config, Up, true, p, if v.config.oneShot then Running else State.Spawned))]
      && s'.ws == s.ws[w := Watcher(i, Waiting(p, None), s.ws[w].tests + if v.config.oneShot then 0 else 1)]
      && s' == s.(hist := s'.hist, svc := s'.svc, ws := s'.ws, writes := s'.writes)
  }

  /** `more` carries `soFar` on by `n` steps of watcher `w`. */
  ghost predicate Carries(soFar: seq<Label>, more: seq<Label>, w: Wid, n: nat) {
    |more| == |soFar| + n && soFar <= more && forall k :: |soFar| <= k < |more| ==> Own(w, more[k])
  }

  function Moved(s: Sys, w: Wid, pc: Pc): Sys
    requires w in s.ws
  {
    s.(ws := s.ws[w := Watcher(s.ws[w].inst, pc, s.ws[w].tests)])
  }

  /** The step was the watcher's, and moved the watcher alone. */
  lemma Moves(ls: seq<Label>, soFar: seq<Label>, s: Sys, w: Wid, t: Turn, pc: Pc) returns (more: seq<Label>)
    requires Exec(ls + soFar) == Some(s) && CanTurn(s, w, t) && TurnTo(s, w, t) == pc
    requires !t.Abort? && !t.TestEnd? && !t.NotifyExit?
    ensures Exec(ls + more) == Some(Moved(s, w, pc)) && Carries(soFar, more, w, 1)
  {
    hide Exec;
    var s';
    more, s' := Go(ls, soFar, s, Turns(w, t));
  }

  lemma CarriesOn(soFar: seq<Label>, mid: seq<Label>, more: seq<Label>, w: Wid, m: nat, n: nat)
    requires Carries(soFar, mid, w, m) && Carries(mid, more, w, n)
    ensures Carries(soFar, more, w, m + n)
  {
    forall k | |soFar| <= k < |more| ensures Own(w, more[k]) {
      if k < |mid| { assert more[k] == mid[k]; }
    }
  }

  lemma SpawnedVia(s: Sys, pc: Pc, s': Sys, w: Wid, p: Pid)
    requires At(s, w) && HasSpawned(Moved(s, w, pc), s', w, p)
    ensures HasSpawned(s, s', w, p)
  {
    assert Moved(s, w, pc).ws[w := s'.ws[w]] == s.ws[w := s'.ws[w]];
  }

  // ---------------------------------------------------------------- round the loop to a spawn

  /** What every place on the way shares. */
  ghost predicate Way(ls: seq<Label>, soFar: seq<Label>, s: Sys, w: Wid, p: Pid) {
    && Exec(ls + soFar) == Some(s) && At(s, w) && InstOf(s, w).v.target == Up && Ripe(s, w)
    && p != 0 && forall x :: x in s.ws ==> s.ws[x].pc != Waiting(p, None)
  }

  lemma FromReady(ls: seq<Label>, soFar: seq<Label>, s: Sys, w: Wid, p: Pid) returns (more: seq<Label>, s': Sys)
    requires Way(ls, soFar, s, w, p) && InstOf(s, w).v.scheduled
    requires s.ws[w].pc.Ready? && |s.ws[w].pc.seen| >= |InstOf(s, w).v.config.after|
    ensures Exec(ls + more) == Some(s') && HasSpawned(s, s', w, p) && Carries(soFar, more, w, 1)
  {
    hide Exec;
    more, s' := Go(ls, soFar, s, Sections(w, SpawnSection(Some(p))));
    assert s'.hist == s.hist + [Spawn(s.ws[w].inst, InstOf(s, w).name, s.ws[w].pc.seen, p)];
  }

  lemma WayMoves(ls: seq<Label>, soFar: seq<Label>, s: Sys, w: Wid, p: Pid, more: seq<Label>, pc: Pc)
    requires Way(ls, soFar, s, w, p) && Exec(ls + more) == Some(Moved(s, w, pc)) && !pc.Waiting?
    ensures Way(ls, more, Moved(s, w, pc), w, p)
  {
    hide Exec;
    assert forall n :: RipeName(Moved(s, w, pc), n) == RipeName(s, n);
  }

  lemma RipeIsSatisfied(s: Sys, n: Name)
    requires RipeName(s, n)
    ensures Satisfied(s.table, s.svc, n)
  {
  }

  lemma {:induction false} FromCheck(ls: seq<Label>, soFar: seq<Label>, s: Sys, w: Wid, p: Pid)
      returns (more: seq<Label>, s': Sys)
    requires Way(ls, soFar, s, w, p) && InstOf(s, w).v.scheduled
    requires s.ws[w].pc.Check? && |s.ws[w].pc.seen| <= |InstOf(s, w).v.config.after|
    ensures Exec(ls + more) == Some(s') && HasSpawned(s, s', w, p)
    ensures Carries(soFar, more, w, |InstOf(s, w).v.config.after| - |s.ws[w].pc.seen| + 2)
    decreases |InstOf(s, w).v.config.after| - |s.ws[w].pc.seen|
  {
    hide Exec, HasSpawned, Carries;
    var after, seen := InstOf(s, w).v.config.after, s.ws[w].pc.seen;
    if |seen| == |after| {
      var mid := Moves(ls, soFar, s, w, ReadDep, Ready(seen));
      WayMoves(ls, soFar, s, w, p, mid, Ready(seen));
      more, s' := FromReady(ls, mid, Moved(s, w, Ready(seen)), w, p);
      CarriesOn(soFar, mid, more, w, 1, 1);
      SpawnedVia(s, Ready(seen), s', w, p);
    } else {
      assert RipeName(s, after[|seen|]);
      RipeIsSatisfied(s, after[|seen|]);
      var pc := Check(s.ws[w].pc.epoch, seen + [s.table[after[|seen|]]]);
      var mid := Moves(ls, soFar, s, w, ReadDep, pc);
      WayMoves(ls, soFar, s, w, p, mid, pc);
      more, s' := FromCheck(ls, mid, Moved(s, w, pc), w, p);
      CarriesOn(soFar, mid, more, w, 1, |after| - |seen| + 1);
      SpawnedVia(s, pc, s', w, p);
    }
  }

  lemma FromCapture(ls: seq<Label>, soFar: seq<Label>, s: Sys, w: Wid, p: Pid) returns (more: seq<Label>, s': Sys)
    requires Way(ls, soFar, s, w, p) && InstOf(s, w).v.scheduled && s.ws[w].pc.Capture?
    ensures Exec(ls + more) == Some(s') && HasSpawned(s, s', w, p)
    ensures Carries(soFar, more, w, |InstOf(s, w).v.config.after| + 3)
  {
    hide Exec, HasSpawned, Carries;
    var mid := Moves(ls, soFar, s, w, MakeNotified, Check(s.epoch, []));
    WayMoves(ls, soFar, s, w, p, mid, Check(s.epoch, []));
    more, s' := FromCheck(ls, mid, Moved(s, w, Check(s.epoch, [])), w, p);
    CarriesOn(soFar, mid, more, w, 1, |InstOf(s, w).v.config.after| + 2);
    SpawnedVia(s, Check(s.epoch, []), s', w, p);
  }

  lemma FromTop(ls: seq<Label>, soFar: seq<Label>, s: Sys, w: Wid, p: Pid) returns (more: seq<Label>, s': Sys)
    requires Way(ls, soFar, s, w, p) && InstOf(s, w).v.scheduled
    requires s.ws[w].pc.Top? || (s.ws[w].pc.Parked? && s.ws[w].pc.epoch < s.epoch)
    ensures Exec(ls + more) == Some(s') && HasSpawned(s, s', w, p)
    ensures Carries(soFar, more, w, |InstOf(s, w).v.config.after| + 4)
  {
    hide Exec, HasSpawned, Carries;
    var mid := Moves(ls, soFar, s, w, if s.ws[w].pc.Top? then LoopTop else Wake, Capture);
    WayMoves(ls, soFar, s, w, p, mid, Capture);
    more, s' := FromCapture(ls, mid, Moved(s, w, Capture), w, p);
    CarriesOn(soFar, mid, more, w, 1, |InstOf(s, w).v.config.after| + 3);
    SpawnedVia(s, Capture, s', w, p);
  }

  lemma FromSleep(ls: seq<Label>, soFar: seq<Label>, s: Sys, w: Wid, p: Pid) returns (more: seq<Label>, s': Sys)
    requires Way(ls, soFar, s, w, p) && InstOf(s, w).v.scheduled && s.ws[w].pc.Sleeping?
    ensures Exec(ls + more) == Some(s') && HasSpawned(s, s', w, p)
    ensures Carries(soFar, more, w, |InstOf(s, w).v.config.after| + 5)
  {
    hide Exec, HasSpawned, Carries;
    var mid := Moves(ls, soFar, s, w, Slept, Top);
    WayMoves(ls, soFar, s, w, p, mid, Top);
    more, s' := FromTop(ls, mid, Moved(s, w, Top), w, p);
    CarriesOn(soFar, mid, more, w, 1, |InstOf(s, w).v.config.after| + 4);
    SpawnedVia(s, Top, s', w, p);
  }

  /** The state behind an open gate. */
  function Opened(s: Sys, w: Wid): Sys
    requires At(s, w)
  {
    var i := s.ws[w].inst;
    s.(svc := s.svc[i := Inst(s.svc[i].name, s.svc[i].v.(scheduled := true))],
       ws := s.ws[w := Watcher(i, Top, s.ws[w].tests)])
  }

  lemma GatedRipe(s: Sys, w: Wid)
    requires At(s, w) && Ripe(s, w)
    ensures Ripe(Opened(s, w), w)
  {
    var s' := Opened(s, w);
    forall d | 0 <= d < |InstOf(s', w).v.config.after| ensures RipeName(s', InstOf(s', w).v.config.after[d]) {
      assert RipeName(s, InstOf(s, w).v.config.after[d]);
    }
  }

  lemma ThroughGate(ls: seq<Label>, soFar: seq<Label>, s: Sys, w: Wid, p: Pid) returns (more: seq<Label>)
    requires Way(ls, soFar, s, w, p) && s.ws[w].pc.Entry? && !InstOf(s, w).v.scheduled
    ensures Exec(ls + more) == Some(Opened(s, w)) && Carries(soFar, more, w, 1)
    ensures Way(ls, more, Opened(s, w), w, p)
  {
    GatedRipe(s, w);
    hide Exec, Ripe;
    var s';
    more, s' := Go(ls, soFar, s, Sections(w, Gate));
    assert s'.hist == s.hist && s'.writes == s.writes && s'.ws == Opened(s, w).ws;
  }

  lemma SpawnedBehindGate(s: Sys, s': Sys, w: Wid, p: Pid)
    requires At(s, w) && HasSpawned(Opened(s, w), s', w, p)
    ensures HasSpawned(s, s', w, p)
  {
    var i := s.ws[w].inst;
    assert Opened(s, w).ws[w := s'.ws[w]] == s.ws[w := s'.ws[w]];
    assert Opened(s, w).svc[i := s'.svc[i]] == s.svc[i := s'.svc[i]];
  }

  lemma FromEntry(ls: seq<Label>, soFar: seq<Label>, s: Sys, w: Wid, p: Pid) returns (more: seq<Label>, s': Sys)
    requires Way(ls, soFar, s, w, p) && s.ws[w].pc.Entry? && !InstOf(s, w).v.scheduled
    ensures Exec(ls + more) == Some(s') && HasSpawned(s, s', w, p)
    ensures Carries(soFar, more, w, |InstOf(s, w).v.config.after| + 5)
  {
    hide Exec, HasSpawned, Carries, Ripe;
    var mid := ThroughGate(ls, soFar, s, w, p);
    more, s' := FromTop(ls, mid, Opened(s, w), w, p);
    CarriesOn(soFar, mid, more, w, 1, |InstOf(s, w).v.config.after| + 4);
    SpawnedBehindGate(s, s', w, p);
  }

  /** From every place where nothing is in its way, the watcher of an Up instance with all dependencies met
      spawns it by its own steps alone, in exactly as many as the place is away from the spawn, and with no
      other effect: so an exited service comes back after its sleep, and a watcher whose future has fired
      checks again. */
  lemma SpawnsAlone(ls: seq<Label>, w: Wid, p: Pid) returns (more: seq<Label>)
    requires Exec(ls).Some? && At(Exec(ls).value, w) && InstOf(Exec(ls).value, w).v.target == Up
    requires Ripe(Exec(ls).value, w) && Unhindered(Exec(ls).value, w)
    requires p != 0 && forall x :: x in Exec(ls).value.ws ==> Exec(ls).value.ws[x].pc != Waiting(p, None)
    ensures Exec(ls + more).Some? && HasSpawned(Exec(ls).value, Exec(ls + more).value, w, p)
    ensures |more| == Distance(Exec(ls).value.ws[w].pc, |InstOf(Exec(ls).value, w).v.config.after|)
    ensures forall k :: 0 <= k < |more| ==> Own(w, more[k])
  {
    var s := Exec(ls).value;
    RunInv(ls);
    SupAt(s.svc, s.ws, s.hist, w);
    ReadyHasAll(s, w);
    assert ls + [] == ls;
    hide Exec, Inv, Ripe, HasSpawned;
    var s' := s;
    match s.ws[w].pc
    case Entry => more, s' := FromEntry(ls, [], s, w, p);
    case Sleeping => more, s' := FromSleep(ls, [], s, w, p);
    case Parked(_, _) => more, s' := FromTop(ls, [], s, w, p);
    case Top => more, s' := FromTop(ls, [], s, w, p);
    case Capture => more, s' := FromCapture(ls, [], s, w, p);
    case Check(_, _) => more, s' := FromCheck(ls, [], s, w, p);
    case Ready(_) => more, s' := FromReady(ls, [], s, w, p);
  }

  lemma ReadyHasAll(s: Sys, w: Wid)
    requires Inv(s) && At(s, w)
    ensures s.ws[w].pc.Ready? ==> |s.ws[w].pc.seen| == |InstOf(s, w).v.config.after|
  {
    assert Trace.SeenOk(s.svc, s.hist, s.ws[w]);
  }

  // ---------------------------------------------------------------- from the end of a process

  /** `s` with instance and watcher of `w` replaced, and events and notifications added. */
  function With(s: Sys, w: Wid, v: Svc, pc: Pc, tests: nat, events: seq<Event>, notified: nat, writes: seq<Write>): Sys
    requires At(s, w)
  {
    var i := s.ws[w].inst;
    s.(svc := s.svc[i := Inst(s.svc[i].name, v)], ws := s.ws[w := Watcher(i, pc, tests)],
       hist := s.hist + events, epoch := s.epoch + notified, writes := writes)
  }

  function Fewer(tests: nat): nat {
    if tests > 0 then tests - 1 else 0
  }

  /** The state an exit leaves. */
  function After(v: Svc, st: WaitStatus): Svc {
    Svc(v.config, v.target, v.scheduled, 0, if st == ExitCode(0) then Success else Error(st))
  }

  lemma Dies(ls: seq<Label>, s: Sys, w: Wid, st: WaitStatus) returns (more: seq<Label>)
    requires Exec(ls) == Some(s) && At(s, w) && s.ws[w].pc.Waiting? && s.ws[w].pc.result.None?
    ensures Exec(ls + more) == Some(With(s, w, InstOf(s, w).v, Waiting(s.ws[w].pc.pid, Some(st)), s.ws[w].tests,
                                         [Exit(s.ws[w].inst, st)], 0, s.writes))
    ensures Carries([], more, w, 1)
  {
    assert ls + [] == ls;
    hide Exec;
    var s';
    more, s' := Go(ls, [], s, Sections(w, ChildExit(st)));
    assert s'.writes == s.writes;
  }

  lemma Stops(ls: seq<Label>, soFar: seq<Label>, s: Sys, w: Wid, p: Pid, st: WaitStatus) returns (more: seq<Label>)
    requires Exec(ls + soFar) == Some(s) && At(s, w) && s.ws[w].pc == Waiting(p, Some(st))
    ensures Exec(ls + more) == Some(With(s, w, InstOf(s, w).v, Reaped(p, st), Fewer(s.ws[w].tests), [], 0, s.writes))
    ensures Carries(soFar, more, w, 1)
  {
    hide Exec;
    var s';
    more, s' := Go(ls, soFar, s, Turns(w, Abort(true)));
    assert s.svc[s.ws[w].inst := s.svc[s.ws[w].inst]] == s.svc && s.hist + [] == s.hist;
  }

  lemma Records(ls: seq<Label>, soFar: seq<Label>, s: Sys, w: Wid, p: Pid, st: WaitStatus)
      returns (more: seq<Label>, writes: seq<Write>)
    requires Exec(ls + soFar) == Some(s) && At(s, w) && s.ws[w].pc == Reaped(p, st)
    ensures var pc := if InstOf(s, w).v.config.oneShot then Owing else Sleeping;
            Exec(ls + more) == Some(With(s, w, After(InstOf(s, w).v, st), pc, s.ws[w].tests, [], 0, writes))
    ensures Carries(soFar, more, w, 1)
  {
    hide Exec;
    var s';
    more, s' := Go(ls, soFar, s, Sections(w, ExitSection));
    writes := s'.writes;
    assert s.hist + [] == s.hist;
  }

  lemma WithTwice(s: Sys, w: Wid, v: Svc, pc: Pc, tests: nat, es: seq<Event>, n: nat, ws: seq<Write>,
                  v': Svc, pc': Pc, tests': nat, es': seq<Event>, n': nat, ws': seq<Write>)
    requires At(s, w)
    ensures var m := With(s, w, v, pc, tests, es, n, ws);
            At(m, w) && InstOf(m, w) == Inst(InstOf(s, w).name, v) && m.ws[w] == Watcher(s.ws[w].inst, pc, tests)
            && With(m, w, v', pc', tests', es', n', ws') == With(s, w, v', pc', tests', es + es', n + n', ws')
  {
    assert s.hist + es + es' == s.hist + (es + es');
  }

  /** A process ends with any status: by three steps of its own the watcher has cleared the pid and recorded
      the status, and sleeps, or owes the notification if it is a one-shot's. */
  lemma EndsAlone(ls: seq<Label>, w: Wid, st: WaitStatus) returns (more: seq<Label>, writes: seq<Write>)
    requires Exec(ls).Some? && At(Exec(ls).value, w)
    requires Exec(ls).value.ws[w].pc.Waiting? && Exec(ls).value.ws[w].pc.result.None?
    ensures var s := Exec(ls).value; var v := InstOf(s, w).v;
            Exec(ls + more) == Some(With(s, w, After(v, st), if v.config.oneShot then Owing else Sleeping,
                                         Fewer(s.ws[w].tests), [Exit(s.ws[w].inst, st)], 0, writes))
    ensures Carries([], more, w, 3)
  {
    var s := Exec(ls).value;
    var i, v, p, tests := s.ws[w].inst, InstOf(s, w).v, s.ws[w].pc.pid, s.ws[w].tests;
    hide Exec, With, Carries;
    var a := Dies(ls, s, w, st);
    var pc := if v.config.oneShot then Owing else Sleeping;
    WithTwice(s, w, v, Waiting(p, Some(st)), tests, [Exit(i, st)], 0, s.writes, v, Reaped(p, st), Fewer(tests), [], 0,
      s.writes);
    var s1 := With(s, w, v, Waiting(p, Some(st)), tests, [Exit(i, st)], 0, s.writes);
    SameWrites(s, w, v, Waiting(p, Some(st)), tests, [Exit(i, st)]);
    var b := Stops(ls, a, s1, w, p, st);
    CarriesOn([], a, b, w, 1, 1);
    var e := [Exit(i, st)] + [];
    assert e == [Exit(i, st)];
    var s2 := With(s, w, v, Reaped(p, st), Fewer(tests), [Exit(i, st)], 0, s.writes);
    WithTwice(s, w, v, Reaped(p, st), Fewer(tests), [Exit(i, st)], 0, s.writes, v, pc, Fewer(tests), [], 0, s.writes);
    more, writes := Records(ls, b, s2, w, p, st);
    WithTwice(s, w, v, Reaped(p, st), Fewer(tests), [Exit(i, st)], 0, s.writes, After(v, st), pc, Fewer(tests), [], 0,
      writes);
    CarriesOn([], b, more, w, 2, 1);
  }

  lemma SameWrites(s: Sys, w: Wid, v: Svc, pc: Pc, tests: nat, es: seq<Event>)
    requires At(s, w)
    ensures With(s, w, v, pc, tests, es, 0, s.writes).writes == s.writes
  {
  }

  lemma Lets(ls: seq<Label>, soFar: seq<Label>, s: Sys, w: Wid) returns (more: seq<Label>)
    requires Exec(ls + soFar) == Some(s) && At(s, w) && s.ws[w].pc.Owing?
    ensures Exec(ls + more) == Some(With(s, w, InstOf(s, w).v, Releasing, s.ws[w].tests, [], 1, s.writes))
    ensures Carries(soFar, more, w, 1)
  {
    hide Exec;
    var s';
    more, s' := Go(ls, soFar, s, Turns(w, NotifyExit));
    assert s.svc[s.ws[w].inst := s.svc[s.ws[w].inst]] == s.svc && s.hist + [] == s.hist;
  }

  lemma Goes(ls: seq<Label>, soFar: seq<Label>, s: Sys, w: Wid) returns (more: seq<Label>)
    requires Exec(ls + soFar) == Some(s) && At(s, w) && s.ws[w].pc.Releasing?
    ensures Exec(ls + more) ==
              Some(With(s, w, InstOf(s, w).v.(scheduled := false), Gone, s.ws[w].tests, [], 0, s.writes))
    ensures Carries(soFar, more, w, 1)
  {
    hide Exec;
    var s';
    more, s' := Go(ls, soFar, s, Sections(w, Release));
    assert s.hist + [] == s.hist && s'.writes == s.writes;
  }

  /** A one-shot's process ends with any status: five steps later its watcher has recorded it, notified all
      waiting watchers once, cleared `scheduled` and gone, and the target is as it was. */
  lemma OneShotEnds(ls: seq<Label>, w: Wid, st: WaitStatus) returns (more: seq<Label>, writes: seq<Write>)
    requires Exec(ls).Some? && At(Exec(ls).value, w) && InstOf(Exec(ls).value, w).v.config.oneShot
    requires Exec(ls).value.ws[w].pc.Waiting? && Exec(ls).value.ws[w].pc.result.None?
    ensures var s := Exec(ls).value; var v := InstOf(s, w).v;
            Exec(ls + more) == Some(With(s, w, After(v, st).(scheduled := false), Gone,
                                         Fewer(s.ws[w].tests), [Exit(s.ws[w].inst, st)], 1, writes))
    ensures Carries([], more, w, 5)
  {
    var s := Exec(ls).value;
    var v, tests, es := InstOf(s, w).v, Fewer(s.ws[w].tests), [Exit(s.ws[w].inst, st)];
    hide Exec, With, Carries;
    var a;
    a, writes := EndsAlone(ls, w, st);
    var s1 := With(s, w, After(v, st), Owing, tests, es, 0, writes);
    WithTwice(s, w, After(v, st), Owing, tests, es, 0, writes, After(v, st), Releasing, tests, [], 1, writes);
    WritesAre(s, w, After(v, st), Owing, tests, es, 0, writes);
    var b := Lets(ls, a, s1, w);
    CarriesOn([], a, b, w, 3, 1);
    assert es + [] == es;
    var s2 := With(s, w, After(v, st), Releasing, tests, es, 1, writes);
    WithTwice(s, w, After(v, st), Releasing, tests, es, 1, writes, After(v, st).(scheduled := false), Gone, tests, [],
      0, writes);
    WritesAre(s, w, After(v, st), Releasing, tests, es, 1, writes);
    more := Goes(ls, b, s2, w);
    CarriesOn([], b, more, w, 4, 1);
  }

  lemma WritesAre(s: Sys, w: Wid, v: Svc, pc: Pc, tests: nat, es: seq<Event>, n: nat, writes: seq<Write>)
    requires At(s, w)
    ensures With(s, w, v, pc, tests, es, n, writes).writes == writes
  {
  }

  /** A spawn that fails leaves the instance in Failure and unscheduled, and nothing else changed; there is no
      retry. */
  lemma FailsAlone(ls: seq<Label>, w: Wid) returns (more: seq<Label>, writes: seq<Write>)
    requires Exec(ls).Some? && At(Exec(ls).value, w) && InstOf(Exec(ls).value, w).v.target == Up
    requires Exec(ls).value.ws[w].pc.Ready?
    ensures var s := Exec(ls).value; var v := InstOf(s, w).v;
            Exec(ls + more) ==
              Some(With(s, w, v.(state := Failure, scheduled := false), Gone, s.ws[w].tests, [], 0, writes))
    ensures Carries([], more, w, 2)
  {
    var s := Exec(ls).value;
    var v, tests := InstOf(s, w).v, s.ws[w].tests;
    assert ls + [] == ls;
    hide Exec, Carries;
    var a, s' := Go(ls, [], s, Sections(w, SpawnSection(None)));
    writes := s'.writes;
    assert s.hist + [] == s.hist;
    assert s' == With(s, w, v.(state := Failure), Releasing, tests, [], 0, writes);
    more := LastStep(ls, a, s, w, v.(state := Failure), tests, writes);
  }

  lemma LastStep(ls: seq<Label>, a: seq<Label>, s: Sys, w: Wid, v: Svc, tests: nat, writes: seq<Write>)
      returns (more: seq<Label>)
    requires At(s, w) && |a| == 1 && Own(w, a[0])
    requires Exec(ls + a) == Some(With(s, w, v, Releasing, tests, [], 0, writes))
    ensures Exec(ls + more) == Some(With(s, w, v.(scheduled := false), Gone, tests, [], 0, writes))
    ensures Carries([], more, w, 2)
  {
    assert Carries([], a, w, 1);
    hide Exec, With, Carries;
    WithTwice(s, w, v, Releasing, tests, [], 0, writes, v.(scheduled := false), Gone, tests, [], 0, writes);
    WritesAre(s, w, v, Releasing, tests, [], 0, writes);
    more := Goes(ls, a, With(s, w, v, Releasing, tests, [], 0, writes), w);
    CarriesOn([], a, more, w, 1, 1);
    var none: seq<Event> := [];
    assert none + none == none;
  }

  /** A watcher that finds its instance Down, at the top of the loop or when about to spawn, spawns nothing
      and clears `scheduled`, and nothing else changes. */
  lemma StopsAlone(ls: seq<Label>, w: Wid, o: Option<Pid>) returns (more: seq<Label>)
    requires Exec(ls).Some? && At(Exec(ls).value, w) && InstOf(Exec(ls).value, w).v.target == Down
    requires Exec(ls).value.ws[w].pc.Top? || Exec(ls).value.ws[w].pc.Ready?
    requires o.Some? ==> o.value != 0 && forall x :: x in Exec(ls).value.ws ==>
        Exec(ls).value.ws[x].pc != Waiting(o.value, None)
    ensures var s := Exec(ls).value; var v := InstOf(s, w).v;
            Exec(ls + more) == Some(With(s, w, v.(scheduled := false), Gone, s.ws[w].tests, [], 0, s.writes))
    ensures Carries([], more, w, 2)
  {
    var s := Exec(ls).value;
    var v, tests := InstOf(s, w).v, s.ws[w].tests;
    assert ls + [] == ls;
    hide Exec, Carries;
    var a, s' := Go(ls, [], s, if s.ws[w].pc.Top? then Turns(w, LoopTop) else Sections(w, SpawnSection(o)));
    assert s.hist + [] == s.hist && s.svc[s.ws[w].inst := s.svc[s.ws[w].inst]] == s.svc && s'.writes == s.writes;
    assert s' == With(s, w, v, Releasing, tests, [], 0, s.writes);
    more := LastStep(ls, a, s, w, v, tests, s.writes);
  }

  // ---------------------------------------------------------------- restarts and releases

  lemma Joined(ls: seq<Label>, a: seq<Label>, b: seq<Label>)
    ensures (ls + a) + b == ls + (a + b)
  {
  }

  /** A service that ends comes back: with all its dependencies met, and not one of its own, the watcher of an
      ordinary service that is Up spawns it again after any exit, by its own steps. */
  lemma Restarts(ls: seq<Label>, w: Wid, st: WaitStatus, q: Pid) returns (more: seq<Label>)
    requires Exec(ls).Some? && At(Exec(ls).value, w)
    requires Exec(ls).value.ws[w].pc.Waiting? && Exec(ls).value.ws[w].pc.result.None?
    requires var s := Exec(ls).value; var v := InstOf(s, w).v;
             && v.target == Up && !v.config.oneShot && Ripe(s, w)
             && forall d :: 0 <= d < |v.config.after| ==> s.table[v.config.after[d]] != s.ws[w].inst
    requires q != 0 && forall x :: x in Exec(ls).value.ws && x != w ==> Exec(ls).value.ws[x].pc != Waiting(q, None)
    ensures Exec(ls + more).Some? && forall k :: 0 <= k < |more| ==> Own(w, more[k])
    ensures var s := Exec(ls).value; var s' := Exec(ls + more).value; var i, v := s.ws[w].inst, InstOf(s, w).v;
            && |more| == |v.config.after| + 8
            && i in s'.svc && s'.svc[i].v == Svc(v.config, Up, true, q, State.Spawned)
            && |s'.hist| == |s.hist| + 2 && s.hist <= s'.hist && s'.hist[|s.hist|] == Exit(i, st)
            && s'.hist[|s.hist| + 1].Spawn? && s'.hist[|s.hist| + 1].id == i && s'.hist[|s.hist| + 1].pid == q
            && s'.table == s.table
  {
    var s := Exec(ls).value;
    var i, v := s.ws[w].inst, InstOf(s, w).v;
    hide Exec;
    var a, writes := EndsAlone(ls, w, st);
    var m := With(s, w, After(v, st), Sleeping, Fewer(s.ws[w].tests), [Exit(i, st)], 0, writes);
    StillRipe(s, w, m);
    var b := SpawnsAlone(ls + a, w, q);
    Joined(ls, a, b);
    more := a + b;
    RestartEffect(s, m, Exec(ls + more).value, w, st, q);
    forall k | 0 <= k < |more| ensures Own(w, more[k]) {
      if k >= |a| { assert more[k] == b[k - |a|]; } else { assert more[k] == a[k]; }
    }
  }

  lemma StillRipe(s: Sys, w: Wid, m: Sys)
    requires At(s, w) && At(m, w) && Ripe(s, w) && InstOf(m, w).v.config == InstOf(s, w).v.config && m.table == s.table
    requires m.ws[w].inst == s.ws[w].inst && forall j :: j in s.svc && j != s.ws[w].inst ==>
        j in m.svc && m.svc[j] == s.svc[j]
    requires forall d :: 0 <= d < |InstOf(s, w).v.config.after| ==>
        s.table[InstOf(s, w).v.config.after[d]] != s.ws[w].inst
    ensures Ripe(m, w)
  {
    forall d | 0 <= d < |InstOf(m, w).v.config.after| ensures RipeName(m, InstOf(m, w).v.config.after[d]) {
      assert RipeName(s, InstOf(s, w).v.config.after[d]);
    }
  }

  lemma RestartEffect(s: Sys, m: Sys, s': Sys, w: Wid, st: WaitStatus, q: Pid)
    requires At(s, w) && At(m, w) && HasSpawned(m, s', w, q) && m.ws[w].inst == s.ws[w].inst && m.table == s.table
    requires m.hist == s.hist + [Exit(s.ws[w].inst, st)] && !InstOf(m, w).v.config.oneShot
    ensures var i := s.ws[w].inst;
            && i in s'.svc && s'.svc[i].v == Svc(InstOf(m, w).v.config, Up, true, q, State.Spawned)
            && |s'.hist| == |s.hist| + 2 && s.hist <= s'.hist && s'.hist[|s.hist|] == Exit(i, st)
            && s'.hist[|s.hist| + 1].Spawn? && s'.hist[|s.hist| + 1].id == i && s'.hist[|s.hist| + 1].pid == q
            && s'.table == s.table
  {
  }
}
