/** Exactly when the protocol's promises hold, where they do not always. */
module Limits {
  import opened Basics
  import opened Service
  import opened Watch
  import opened Supervision
  import opened Trace
  import opened WatchRuns
  import opened Kills
  import opened StateRelation

  lemma Go(ls: seq<Label>, more: seq<Label>, s: Sys, l: Label) returns (more': seq<Label>, s': Sys)
    requires Exec(ls + more) == Some(s) && Enabled(s, l)
    ensures Exec(ls + more') == Some(s') && s' == Apply(s, l) && more' == more + [l]
  {
    more', s' := more + [l], Apply(s, l);
    assert ls + more' == (ls + more) + [l];
    assert (ls + more')[..|ls + more|] == ls + more;
  }

  /** A number that is no key: the one after the greatest. */
  lemma {:induction false} Fresh<T>(m: map<nat, T>) returns (i: nat)
    ensures forall k :: k in m ==> k < i
    decreases |m|
  {
    if m == map[] {
      i := 0;
    } else {
      var k :| k in m;
      assert (m - {k}).Keys == m.Keys - {k};
      assert |(m - {k}).Keys| < |m.Keys|;
      var j := Fresh(m - {k});
      i := if j <= k then k + 1 else j;
      assert forall x :: x in m ==> x == k || x in m - {k};
    }
  }

  // ---------------------------------------------------------------- a target raised behind a kill task

  /** From here on, some continuation has task `k` post with the instance it stopped Up. */
  ghost predicate MayPostUp(ls: seq<Label>, k: Kid) {
    exists more :: Exec(ls + more).Some? && PostedUp(Exec(ls + more).value, k)
  }

  predicate PostedUp(s: Sys, k: Kid) {
    RaisedAt(s, k, Posted)
  }

  /** Task `k` is at `pc`, and the instance it stopped is Up. */
  predicate RaisedAt(s: Sys, k: Kid, pc: KillPc) {
    && k in s.kills && s.kills[k].pc == pc && s.kills[k].stopped.Some?
    && s.kills[k].stopped.value in s.svc && s.svc[s.kills[k].stopped.value].v.target.Up?
  }

  /** Task `k` is for `n`, no `start` of `n` is past its flag check or can get there, and what the task
      stopped is Down. */
  ghost predicate Held(s: Sys, k: Kid, n: Name) {
    && s.flag && n !in s.starts && k in s.kills && s.kills[k].name == n
    && (s.kills[k].stopped.Some? ==> DownNamed(s.svc, s.kills[k].stopped.value, n))
  }

  predicate DownNamed(svc: map<Id, Inst>, i: Id, n: Name) {
    i in svc && svc[i].name == n && svc[i].v.target.Down?
  }

  lemma StartsShrink(s: Sys, l: Label, n: Name)
    requires Enabled(s, l) && s.flag && n !in s.starts
    ensures n !in Apply(s, l).starts
  {
    hide Outcome, NamedState, TurnTo, CanTurn, CanSection, Retarget, DoRequest;
    match l
    case Api(r) => StartsRequest(s, r, n);
    case Shuts(k, d) => RetargetFrame(s, if d.KillStop? then s.kills[k].name else "", Down);
    case _ =>
  }

  lemma StartsRequest(s: Sys, r: Request, n: Name)
    requires CanRequest(s, r) && s.flag && n !in s.starts
    ensures n !in DoRequest(s, r).starts
  {
    hide Retarget;
    match r
    case StartTarget(m) => RetargetFrame(s, m, Up);
    case Stop(m) => RetargetFrame(s, m, Down);
    case _ =>
  }

  /** Only a pending `start` of its own name raises an instance. */
  lemma RaisedByStart(s: Sys, l: Label, i: Id)
    requires Enabled(s, l) && Refs(s.table, s.svc, s.ws) && Apply(s, l).hist == s.hist + [Raise(i)] && i in s.svc
    ensures s.svc[i].name in s.starts
  {
    assert Apply(s, l).hist[|s.hist|] == Raise(i);
    hide Refs, Outcome, NamedState, TurnTo, CanTurn;
    match l
    case Api(r) => RaisedByRequest(s, r, i);
    case Sections(w, c) => NoRaiseInSection(s, w, c);
    case Shuts(k, d) => NoRaiseInShutdown(s, k, d);
    case _ =>
  }

  lemma RaisedByRequest(s: Sys, r: Request, i: Id)
    requires CanRequest(s, r) && Refs(s.table, s.svc, s.ws) && DoRequest(s, r).hist == s.hist + [Raise(i)] && i in s.svc
    ensures s.svc[i].name in s.starts
  {
    assert DoRequest(s, r).hist[|s.hist|] == Raise(i);
  }

  lemma NoRaiseInSection(s: Sys, w: Wid, c: Section)
    requires CanSection(s, w, c)
    ensures var h' := DoSection(s, w, c).hist; |h'| > |s.hist| ==> !h'[|s.hist|].Raise?
  {
    var e := Outcome(s, w, c).events;
    assert forall k :: 0 <= k < |e| ==> !e[k].Raise?;
  }

  lemma NoRaiseInShutdown(s: Sys, k: Kid, d: Shutting)
    requires CanShut(s, k, d)
    ensures var h' := DoShut(s, k, d).hist; |h'| > |s.hist| ==> !h'[|s.hist|].Raise?
  {
  }

  lemma StaysDown(s: Sys, l: Label, i: Id, n: Name)
    requires Enabled(s, l) && Refs(s.table, s.svc, s.ws) && n !in s.starts && DownNamed(s.svc, i, n)
    ensures DownNamed(Apply(s, l).svc, i, n)
  {
    hide Refs, Apply, Enabled;
    InstAny(s, l, i);
    if Apply(s, l).svc[i].v.target.Up? { RaisedByStart(s, l, i); }
  }

  lemma StopIsDown(s: Sys, k: Kid)
    requires CanShut(s, k, KillStop) && Refs(s.table, s.svc, s.ws)
    ensures var t := KillTo(s, k, KillStop);
            t.stopped.Some? ==> DownNamed(DoShut(s, k, KillStop).svc, t.stopped.value, s.kills[k].name)
  {
  }

  lemma HeldStep(s: Sys, l: Label, k: Kid, n: Name)
    requires Held(s, k, n) && Refs(s.table, s.svc, s.ws) && Enabled(s, l)
    ensures Held(Apply(s, l), k, n)
  {
    hide Refs, Apply, Enabled, DownNamed;
    var s' := Apply(s, l);
    FlagStep(s, l);
    StartsShrink(s, l, n);
    KillStays(s, l, k);
    KillsAfter(s, l, k);
    if s'.kills[k].stopped.Some? {
      if s.kills[k].stopped == s'.kills[k].stopped {
        StaysDown(s, l, s.kills[k].stopped.value, n);
      } else {
        ShutApplies(s, k, l.d);
        StopIsDown(s, k);
      }
    }
  }

  lemma {:induction false} HeldRun(ls: seq<Label>, more: seq<Label>, k: Kid, n: Name)
    requires Exec(ls).Some? && Held(Exec(ls).value, k, n) && Exec(ls + more).Some?
    ensures Held(Exec(ls + more).value, k, n)
    decreases |more|
  {
    hide Held, Apply, Enabled, Exec;
    if more == [] {
      assert ls + more == ls;
    } else {
      var init := more[..|more| - 1];
      assert (ls + more)[..|ls + more| - 1] == ls + init;
      assert (ls + more)[|ls + more| - 1] == more[|more| - 1];
      ExecLast(ls + more);
      HeldRun(ls, init, k, n);
      RunInv(ls + init);
      HeldStep(Exec(ls + init).value, more[|more| - 1], k, n);
    }
  }

  /** Nothing carries the name `n`, and nothing ever will. */
  ghost predicate Absent(s: Sys, k: Kid, n: Name) {
    && s.flag && n !in s.table && (forall c :: (n, c) !in s.monitors)
    && k in s.kills && s.kills[k].name == n && s.kills[k].stopped.None?
  }

  lemma AbsentTable(s: Sys, l: Label, n: Name)
    requires Enabled(s, l) && s.flag && n !in s.table && forall c :: (n, c) !in s.monitors
    ensures n !in Apply(s, l).table && forall c :: (n, c) !in Apply(s, l).monitors
  {
    hide Outcome, NamedState, TurnTo, CanTurn, CanSection, Retarget, DoRequest;
    match l
    case Api(r) => AbsentRequest(s, r, n);
    case Shuts(k, d) => RetargetFrame(s, if d.KillStop? then s.kills[k].name else "", Down);
    case _ =>
  }

  lemma AbsentRequest(s: Sys, r: Request, n: Name)
    requires CanRequest(s, r) && s.flag && n !in s.table && forall c :: (n, c) !in s.monitors
    ensures n !in DoRequest(s, r).table && forall c :: (n, c) !in DoRequest(s, r).monitors
  {
    hide Retarget;
    match r
    case StartTarget(m) => RetargetFrame(s, m, Up);
    case Stop(m) => RetargetFrame(s, m, Down);
    case _ =>
  }

  lemma AbsentStop(s: Sys, k: Kid)
    requires CanShut(s, k, KillStop) && s.kills[k].name !in s.table
    ensures KillTo(s, k, KillStop).stopped.None?
  {
  }

  lemma AbsentStep(s: Sys, l: Label, k: Kid, n: Name)
    requires Absent(s, k, n) && Enabled(s, l)
    ensures Absent(Apply(s, l), k, n)
  {
    AbsentTable(s, l, n);
    FlagStep(s, l);
    KillStays(s, l, k);
    KillsAfter(s, l, k);
    if l == Shuts(k, KillStop) {
      ShutApplies(s, k, KillStop);
      AbsentStop(s, k);
    }
    hide Apply, Enabled;
  }

  lemma {:induction false} AbsentRun(ls: seq<Label>, more: seq<Label>, k: Kid, n: Name)
    requires Exec(ls).Some? && Absent(Exec(ls).value, k, n) && Exec(ls + more).Some?
    ensures Absent(Exec(ls + more).value, k, n)
    decreases |more|
  {
    hide Absent, Apply, Enabled, Exec;
    if more == [] {
      assert ls + more == ls;
    } else {
      var init := more[..|more| - 1];
      assert (ls + more)[..|ls + more| - 1] == ls + init;
      assert (ls + more)[|ls + more| - 1] == more[|more| - 1];
      ExecLast(ls + more);
      AbsentRun(ls, init, k, n);
      AbsentStep(Exec(ls + init).value, more[|more| - 1], k, n);
    }
  }

  /** A name that is in the table, or that a `monitor` past its flag check is about to put there. */
  ghost predicate Obtainable(s: Sys, n: Name) {
    n in s.table || exists c :: (n, c) in s.monitors
  }

  lemma Obtain(ls: seq<Label>, n: Name, k: Kid) returns (more: seq<Label>, s: Sys)
    requires Exec(ls).Some? && Obtainable(Exec(ls).value, n) && n in Exec(ls).value.starts
    requires k in Exec(ls).value.kills && Exec(ls).value.kills[k] == Kill(n, ToStop, None, Exec(ls).value.kills[k].at)
    ensures Exec(ls + more) == Some(s) && Known(s, n) && n in s.starts
    ensures k in s.kills && s.kills[k].name == n && s.kills[k].pc.ToStop?
  {
    more, s := [], Exec(ls).value;
    RunInv(ls);
    assert ls + [] == ls;
    hide Exec;
    if n !in s.table {
      var c :| (n, c) in s.monitors;
      var i := Fresh(s.svc);
      var w := Fresh(s.ws);
      more, s := Go(ls, [], s, Api(MonitorInsert(n, c, i, w)));
    }
  }

  /** The task goes through to its post, and a pending `start` raises the service behind its `stop`. */
  lemma PostUp(ls: seq<Label>, soFar: seq<Label>, s0: Sys, k: Kid) returns (more: seq<Label>)
    requires Exec(ls + soFar) == Some(s0) && k in s0.kills && s0.kills[k].pc.ToStop?
    requires Known(s0, s0.kills[k].name) && s0.kills[k].name in s0.starts
    ensures Exec(ls + more).Some? && PostedUp(Exec(ls + more).value, k)
  {
    hide Exec;
    var s, n := s0, s0.kills[k].name;
    more, s := Go(ls, soFar, s, Shuts(k, KillStop));
    more, s := Go(ls, more, s, Api(StartTarget(n)));
    assert s.kills[k].stopped == Some(s0.table[n]) && RaisedAt(s, k, ToWait);
    more := PostFromWait(ls, more, s, k);
  }

  lemma PostFromWait(ls: seq<Label>, soFar: seq<Label>, s0: Sys, k: Kid) returns (more: seq<Label>)
    requires Exec(ls + soFar) == Some(s0) && RaisedAt(s0, k, ToWait)
    ensures Exec(ls + more).Some? && PostedUp(Exec(ls + more).value, k)
  {
    hide Exec;
    var s := s0;
    more, s := Go(ls, soFar, s, Shuts(k, KillWaited));
    assert RaisedAt(s, k, ToCheck);
    more, s := Go(ls, more, s, Shuts(k, KillStatus));
    if s.kills[k].pc.ToKill? {
      assert RaisedAt(s, k, ToKill);
      more, s := Go(ls, more, s, Shuts(k, KillSignal));
    }
    assert RaisedAt(s, k, ToPost);
    more, s := Go(ls, more, s, Shuts(k, KillPost));
  }

  /** Exactly when a kill task that has yet to stop its service may end up posting it with its target Up:
      when a `start` of that name has read the flag before it was set and not written its target yet, and
      there is, or a `monitor` past its flag check can still make, a service of the name. */
  lemma MayPostUpIff(ls: seq<Label>, k: Kid)
    requires Exec(ls).Some? && k in Exec(ls).value.kills && Exec(ls).value.kills[k].pc.ToStop?
    ensures var s := Exec(ls).value; var n := s.kills[k].name;
            MayPostUp(ls, k) <==> n in s.starts && Obtainable(s, n)
  {
    var s, n := Exec(ls).value, Exec(ls).value.kills[k].name;
    RunKills(ls);
    assert TaskOk(s, s.kills[k]);
    if n in s.starts && Obtainable(s, n) {
      var more, s' := Obtain(ls, n, k);
      more := PostUp(ls, more, s', k);
    } else {
      hide Exec, PostedUp;
      forall more ensures !(Exec(ls + more).Some? && PostedUp(Exec(ls + more).value, k)) {
        if Exec(ls + more).Some? { NotPostedUp(ls, more, k, n); }
      }
    }
  }

  lemma NotPostedUp(ls: seq<Label>, more: seq<Label>, k: Kid, n: Name)
    requires Exec(ls).Some? && Exec(ls + more).Some? && (Held(Exec(ls).value, k, n) || Absent(Exec(ls).value, k, n))
    ensures !PostedUp(Exec(ls + more).value, k)
  {
    hide Exec;
    if Held(Exec(ls).value, k, n) {
      HeldRun(ls, more, k, n);
      HeldIsDown(Exec(ls + more).value, k, n);
    } else {
      AbsentRun(ls, more, k, n);
    }
  }

  lemma HeldIsDown(s: Sys, k: Kid, n: Name)
    requires Held(s, k, n)
    ensures !PostedUp(s, k)
  {
  }

  // ---------------------------------------------------------------- a lost start

  /** The watcher is past the gate and on its way round the loop, not out of it. */
  predicate InLoop(pc: Pc) {
    Active(pc) && !pc.Owing? && !pc.Releasing?
  }

  ghost predicate LeavingWatcher(s: Sys, i: Id) {
    exists x :: Supervises(s, x, i) && !InLoop(s.ws[x].pc)
  }

  ghost predicate LoopingWatcher(s: Sys, i: Id) {
    exists x :: Supervises(s, x, i) && InLoop(s.ws[x].pc)
  }

  lemma GateOutcome(s: Sys, w: Wid)
    requires CanSection(s, w, Gate)
    ensures var s', i := DoSection(s, w, Gate), s.ws[w].inst;
            && (GateOpens(s.svc[i].v) ==> Supervises(s', w, i) && InLoop(s'.ws[w].pc))
            && (!GateOpens(s.svc[i].v) ==> !Active(s'.ws[w].pc))
            && (forall x :: x != w ==> (x in s'.ws <==> x in s.ws) && (x in s.ws ==> s'.ws[x] == s.ws[x]))
  {
  }

  /** Exactly when a `start` is not lost: after its watcher has passed the gate of an instance that is Up,
      some watcher of that instance is in the loop if and only if none was just leaving it, that is,
      owing the notification of a finished one-shot or about to clear `scheduled`. */
  lemma StartTakesIff(ls: seq<Label>, w: Wid)
    requires Exec(ls).Some? && Enabled(Exec(ls).value, Sections(w, Gate))
    requires InstOf(Exec(ls).value, w).v.target.Up?
    ensures var s := Exec(ls).value; var i := s.ws[w].inst;
            LoopingWatcher(Apply(s, Sections(w, Gate)), i) <==> !LeavingWatcher(s, i)
  {
    var s := Exec(ls).value;
    var s', i := DoSection(s, w, Gate), s.ws[w].inst;
    SingleSupervisor(ls, i);
    GateOutcome(s, w);
    hide Exec, DoSection, CanSection;
    assert forall x :: x != w ==> (Supervises(s', x, i) <==> Supervises(s, x, i));
    if s.svc[i].v.scheduled {
      var x :| Supervises(s, x, i);
      assert x != w && Supervises(s', x, i);
    } else {
      assert Supervises(s', w, i) && InLoop(s'.ws[w].pc);
    }
  }

  /** And a watcher of an instance that is Up leaves the loop exactly by a failed spawn or by the exit of a
      one-shot. */
  lemma LeavesLoopIff(s: Sys, l: Label, w: Wid)
    requires Enabled(s, l) && At(s, w) && InLoop(s.ws[w].pc) && InstOf(s, w).v.target.Up?
    ensures w in Apply(s, l).ws
    ensures !InLoop(Apply(s, l).ws[w].pc) <==>
              l == Sections(w, SpawnSection(None)) || (l == Sections(w, ExitSection) && InstOf(s, w).v.config.oneShot)
  {
    hide DoRequest, DoShut, NamedState, CanShut;
    match l
    case Api(r) => RequestKeepsWatcher(s, r, w);
    case Shuts(k, d) => ShutKeepsWatcher(s, k, d, w);
    case _ =>
  }

  lemma RequestKeepsWatcher(s: Sys, r: Request, w: Wid)
    requires CanRequest(s, r) && w in s.ws
    ensures w in DoRequest(s, r).ws && DoRequest(s, r).ws[w] == s.ws[w]
  {
  }

  lemma ShutKeepsWatcher(s: Sys, k: Kid, d: Shutting, w: Wid)
    requires CanShut(s, k, d) && w in s.ws
    ensures DoShut(s, k, d).ws == s.ws
  {
  }

  // ---------------------------------------------------------------- spawns during shutdown

  ghost predicate MaySpawn(ls: seq<Label>, i: Id)
    requires Exec(ls).Some?
  {
    exists more, b: nat :: Exec(ls + more).Some? && SpawnedSince(Exec(ls).value.hist, Exec(ls + more).value.hist, b, i)
  }

  predicate SpawnedSince(h: seq<Event>, h': seq<Event>, b: nat, i: Id) {
    |h| <= b < |h'| && h'[b].Spawn? && h'[b].id == i
  }

  /** A pid greater than those of all waiting watchers' children. */
  lemma {:induction false} FreePid(ws: map<Wid, Watcher>) returns (p: Pid)
    ensures p != 0 && forall x :: x in ws && ws[x].pc.Waiting? ==> ws[x].pc.pid < p
    decreases |ws|
  {
    if ws == map[] {
      p := 1;
    } else {
      var w :| w in ws;
      assert (ws - {w}).Keys == ws.Keys - {w};
      assert |(ws - {w}).Keys| < |ws.Keys|;
      var q := FreePid(ws - {w});
      p := if ws[w].pc.Waiting? && q <= ws[w].pc.pid then ws[w].pc.pid + 1 else q;
      assert forall x :: x in ws ==> x == w || x in ws - {w};
    }
  }

  /** Exactly when a service that is ready to be spawned can still be, once the flag is set and no `start`
      is past its flag check: when its target is Up. */
  lemma MaySpawnIff(ls: seq<Label>, w: Wid)
    requires Exec(ls).Some? && Sealed(Exec(ls).value) && At(Exec(ls).value, w) && Exec(ls).value.ws[w].pc.Ready?
    ensures MaySpawn(ls, Exec(ls).value.ws[w].inst) <==> InstOf(Exec(ls).value, w).v.target.Up?
  {
    var s := Exec(ls).value;
    var i := s.ws[w].inst;
    if InstOf(s, w).v.target.Up? {
      var p := FreePid(s.ws);
      assert ls + [] == ls;
      hide Exec;
      var more, s' := Go(ls, [], s, Sections(w, SpawnSection(Some(p))));
      assert s'.hist[|s.hist|] == Spawn(i, InstOf(s, w).name, s.ws[w].pc.seen, p);
      assert SpawnedSince(s.hist, Exec(ls + more).value.hist, |s.hist|, i);
    } else {
      forall more, b: nat ensures !(Exec(ls + more).Some? && SpawnedSince(s.hist, Exec(ls + more).value.hist, b, i)) {
        if Exec(ls + more).Some? { DownForGood(ls, more, i); }
      }
    }
  }

  // ---------------------------------------------------------------- what a check accepts

  /** Exactly what a check accepts of a dependency: a service in the table that has a process, is Running and
      is no one-shot, or one, one-shot or not, whose process is gone after exit code 0. Anything else stops
      the check at that dependency. */
  lemma AcceptsIff(ls: seq<Label>, w: Wid)
    requires Exec(ls).Some? && DisciplinedRun(ls) && Enabled(Exec(ls).value, Turns(w, ReadDep))
    requires |Exec(ls).value.ws[w].pc.seen| < |InstOf(Exec(ls).value, w).v.config.after|
    ensures var s := Exec(ls).value; var pc, pc' := s.ws[w].pc, Apply(s, Turns(w, ReadDep)).ws[w].pc;
            var n := InstOf(s, w).v.config.after[|pc.seen|];
            var met := n in s.table && s.table[n] in s.svc
                       && var v := s.svc[s.table[n]].v;
                          (v.state == Running && v.pid != 0 && !v.config.oneShot) || (v.state == Success && v.pid == 0);
            if met then pc' == Check(pc.epoch, pc.seen + [s.table[n]]) else pc' == Unmet(pc.epoch, |pc.seen|)
  {
    LifecycleRelation(ls);
    hide Exec;
  }

  // ---------------------------------------------------------------- the gate

  /** Exactly who passes the gate: a watcher of an instance that is Up and has no supervisor, which it then is.
      Any other goes without a trace. */
  lemma PassesGateIff(ls: seq<Label>, w: Wid)
    requires Exec(ls).Some? && Enabled(Exec(ls).value, Sections(w, Gate))
    ensures var s := Exec(ls).value; var s' := Apply(s, Sections(w, Gate)); var i := s.ws[w].inst;
            && (Supervises(s', w, i) <==> InstOf(s, w).v.target == Up && !exists x :: Supervises(s, x, i))
            && (!Supervises(s', w, i) ==> s' == s.(ws := s.ws[w := Watcher(i, Gone, s.ws[w].tests)]))
  {
    var s := Exec(ls).value;
    SingleSupervisor(ls, s.ws[w].inst);
    hide Exec;
    GateEffect(s, w);
  }

  lemma GateEffect(s: Sys, w: Wid)
    requires CanSection(s, w, Gate)
    ensures var s', i := DoSection(s, w, Gate), s.ws[w].inst; var v := s.svc[i].v;
            && w in s'.ws && s'.ws[w].inst == i
            && (Active(s'.ws[w].pc) <==> v.target == Up && !v.scheduled)
            && (!Active(s'.ws[w].pc) ==> s' == s.(ws := s.ws[w := Watcher(i, Gone, s.ws[w].tests)]))
  {
    assert s.svc[s.ws[w].inst := s.svc[s.ws[w].inst]] == s.svc && s.hist + [] == s.hist;
    assert s.writes + WritesOf(s.ws[w].inst, []) == s.writes;
  }
}
