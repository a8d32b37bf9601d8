/** What a posted kill task means: `kill_wait_enhanced` beside everything else. */
module Kills {
  import opened Basics
  import opened Service
  import opened Watch
  import opened Supervision
  import opened Trace
  import opened WatchRuns

  /** No `start` has set the target of `i` Up after position `at` of the history. */
  ghost predicate Unraised(h: seq<Event>, i: Id, at: nat) {
    forall c :: at < c < |h| ==> h[c] != Raise(i)
  }

  /** What one step can do to an instance, as far as a kill task is concerned. */
  ghost predicate InstStep(s: Sys, s': Sys, i: Id) {
    && (s'.hist == s.hist || (|s'.hist| == |s.hist| + 1 && s'.hist == s.hist + [s'.hist[|s.hist|]]))
    && (i in s.svc ==>
          && i in s'.svc && s'.svc[i].name == s.svc[i].name
          && (s.svc[i].v.target.Down? && s'.svc[i].v.target.Up? ==> s'.hist == s.hist + [Raise(i)])
          && (s.svc[i].v.target.Down? ==> s'.svc[i].v.pid == s.svc[i].v.pid || s'.svc[i].v.pid == 0)
          && (Listed(s'.table, s'.svc, i) ==> Listed(s.table, s.svc, i)))
  }

  lemma InstRetarget(s: Sys, n: Name, t: Target, i: Id)
    ensures InstStep(s, Retarget(s, n, t), i)
  {
  }

  lemma InstInsert(s: Sys, n: Name, c: Config, j: Id, w: Wid, i: Id)
    requires j !in s.svc
    ensures InstStep(s, DoInsert(s, n, c, j, w), i)
  {
  }

  lemma InstMore(s: Sys, m: Sys, s': Sys, i: Id)
    requires InstStep(s, m, i) && s'.svc == m.svc && s'.table == m.table && s'.hist == m.hist
    ensures InstStep(s, s', i)
  {
  }

  lemma InstRequest(s: Sys, r: Request, i: Id)
    requires CanRequest(s, r)
    ensures InstStep(s, DoRequest(s, r), i)
  {
    hide Retarget, DoInsert, DoWatch, DoForget, InstStep;
    match r
    case MonitorInsert(n, c, j, w) => InstInsert(s, n, c, j, w, i);
    case StartTarget(n) =>
      InstRetarget(s, n, Up, i);
      InstMore(s, Retarget(s, n, Up), DoRequest(s, r), i);
    case StartWatch(n, w) => InstWatch(s, n, w, i);
    case Stop(n) => InstRetarget(s, n, Down, i);
    case Forget(n) => InstForget(s, n, i);
    case _ => InstSame(s, DoRequest(s, r), i);
  }

  lemma InstWatch(s: Sys, n: Name, w: Wid, i: Id)
    ensures InstStep(s, DoWatch(s, n, w), i)
  {
  }

  lemma InstForget(s: Sys, n: Name, i: Id)
    ensures InstStep(s, DoForget(s, n), i)
  {
  }

  lemma InstSection(s: Sys, w: Wid, c: Section, i: Id)
    requires CanSection(s, w, c)
    ensures InstStep(s, DoSection(s, w, c), i)
  {
    var e := Outcome(s, w, c);
    assert e.events == [] || e.events == [e.events[0]];
    assert s.hist + [] == s.hist;
    SectionInst(s, w, c);
    hide Outcome;
  }

  lemma SectionInst(s: Sys, w: Wid, c: Section)
    requires CanSection(s, w, c)
    ensures var v, v' := InstOf(s, w).v, Outcome(s, w, c).v;
            v'.target == v.target && (v.target.Down? ==> v'.pid == v.pid || v'.pid == 0)
  {
  }

  lemma InstShut(s: Sys, k: Kid, d: Shutting, i: Id)
    requires CanShut(s, k, d)
    ensures InstStep(s, DoShut(s, k, d), i)
  {
    hide Retarget;
    if d.KillStop? { InstRetarget(s, s.kills[k].name, Down, i); }
  }

  lemma InstAny(s: Sys, l: Label, i: Id)
    requires Enabled(s, l)
    ensures InstStep(s, Apply(s, l), i)
  {
    hide DoRequest, DoSection, DoShut, InstStep, NamedState, TurnTo, CanTurn;
    match l
    case Api(r) => InstRequest(s, r, i);
    case Sections(w, c) => InstSection(s, w, c, i);
    case Shuts(k, d) => InstShut(s, k, d, i);
    case Names(w, b) => InstName(s, w, b, i);
    case _ => InstSame(s, Apply(s, l), i);
  }

  lemma InstSame(s: Sys, s': Sys, i: Id)
    requires s'.svc == s.svc && s'.table == s.table && s'.hist == s.hist
    ensures InstStep(s, s', i)
  {
  }

  lemma InstName(s: Sys, w: Wid, b: ByName, i: Id)
    requires CanName(s, w, b)
    ensures InstStep(s, DoName(s, w, b), i)
  {
    hide NamedState;
  }

  /** What is true of a kill task from its `stop` on: unless a `start` came after that `stop`, the instance
      is Down, and once the task is ready to post, the instance has no pid or SIGKILL went to it. */
  ghost predicate TaskOk(s: Sys, t: Kill) {
    && (t.pc.ToStop? ==> t.stopped.None?)
    && (t.stopped.Some? ==>
          var i := t.stopped.value;
          && i in s.svc && s.svc[i].name == t.name
          && t.at < |s.hist| && s.hist[t.at].Lower? && s.hist[t.at].id == i
          && (Unraised(s.hist, i, t.at) ==>
                && s.svc[i].v.target.Down?
                && ((t.pc.ToPost? || t.pc.Posted?) && Listed(s.table, s.svc, i) ==>
                      s.svc[i].v.pid == 0 || Sigkill(i, s.svc[i].v.pid) in s.hist)))
  }

  ghost predicate KillOk(s: Sys) {
    && (s.kills != map[] ==> s.flag)
    && (forall k :: k in s.kills ==> TaskOk(s, s.kills[k]))
  }

  lemma UnraisedBefore(h: seq<Event>, h': seq<Event>, i: Id, at: nat)
    requires at < |h| && h <= h' && Unraised(h', i, at)
    ensures Unraised(h, i, at) && (|h'| > |h| ==> h'[|h|] != Raise(i))
  {
    forall c | at < c < |h| ensures h[c] != Raise(i) {
      assert h'[c] == h[c];
    }
  }

  lemma TaskKept(s: Sys, s': Sys, t: Kill)
    requires TaskOk(s, t) && (t.stopped.Some? ==> InstStep(s, s', t.stopped.value))
    ensures TaskOk(s', t)
  {
    if t.stopped.Some? && Unraised(s'.hist, t.stopped.value, t.at) {
      UnraisedBefore(s.hist, s'.hist, t.stopped.value, t.at);
    }
  }

  lemma TaskMoves(s: Sys, k: Kid, d: Shutting)
    requires KillOk(s) && Refs(s.table, s.svc, s.ws) && CanShut(s, k, d) && !d.SetFlag? && !d.KillTask?
    ensures TaskOk(DoShut(s, k, d), KillTo(s, k, d))
  {
    var s', t := DoShut(s, k, d), s.kills[k];
    assert TaskOk(s, t);
    if t.stopped.Some? && Unraised(s'.hist, t.stopped.value, t.at) {
      UnraisedBefore(s.hist, s'.hist, t.stopped.value, t.at);
      StatusPid(s, t.name, t.stopped.value);
    }
  }

  lemma StatusPid(s: Sys, n: Name, i: Id)
    requires i in s.svc && s.svc[i].name == n
    ensures Listed(s.table, s.svc, i) ==> PidByName(s, n) == s.svc[i].v.pid && s.table[n] == i
  {
  }

  /** What a target write leaves alone. */
  lemma RetargetFrame(s: Sys, n: Name, t: Target)
    ensures var s' := Retarget(s, n, t);
            && s'.flag == s.flag && s'.kills == s.kills && s'.table == s.table && s'.svc.Keys == s.svc.Keys
            && s'.starts == s.starts && s'.monitors == s.monitors
  {
  }

  lemma InsertKeepsKills(s: Sys, n: Name, c: Config, i: Id, w: Wid)
    ensures DoInsert(s, n, c, i, w).flag == s.flag && DoInsert(s, n, c, i, w).kills == s.kills
  {
  }

  lemma LookupKeepsKills(s: Sys, n: Name, w: Wid)
    ensures DoWatch(s, n, w).flag == s.flag && DoWatch(s, n, w).kills == s.kills
    ensures DoForget(s, n).flag == s.flag && DoForget(s, n).kills == s.kills
  {
  }

  lemma RequestKeepsKills(s: Sys, r: Request)
    requires CanRequest(s, r)
    ensures DoRequest(s, r).flag == s.flag && DoRequest(s, r).kills == s.kills
  {
    hide Retarget, DoInsert, DoWatch, DoForget;
    match r
    case MonitorInsert(n, c, i, w) => InsertKeepsKills(s, n, c, i, w);
    case StartTarget(n) => RetargetFrame(s, n, Up);
    case StartWatch(n, w) => LookupKeepsKills(s, n, w);
    case Stop(n) => RetargetFrame(s, n, Down);
    case Forget(n) => LookupKeepsKills(s, n, 0);
    case _ =>
  }

  /** The flag is never taken back, and kill tasks start only when it is set. */
  lemma FlagStep(s: Sys, l: Label)
    requires Enabled(s, l) && (s.kills != map[] ==> s.flag)
    ensures (s.flag ==> Apply(s, l).flag) && (Apply(s, l).kills != map[] ==> Apply(s, l).flag)
  {
    hide DoRequest, Retarget, Outcome, NamedState, TurnTo, CanTurn, CanSection;
    match l
    case Api(r) => RequestKeepsKills(s, r);
    case Shuts(k, d) => RetargetFrame(s, if d.KillStop? then s.kills[k].name else "", Down);
    case _ =>
  }

  /** The kill tasks after a step: the same, but for the one that moved. */
  lemma KillsAfter(s: Sys, l: Label, k: Kid)
    requires Enabled(s, l) && k in Apply(s, l).kills
    ensures || (k in s.kills && Apply(s, l).kills[k] == s.kills[k])
            || (l.Shuts? && l.k == k && l.d.KillTask? && Apply(s, l).kills[k] == Kill(l.d.n, ToStop, None, 0))
            || (l.Shuts? && l.k == k && !l.d.KillTask? && !l.d.SetFlag? && Apply(s, l).kills[k] == KillTo(s, k, l.d))
  {
    hide DoRequest, DoShut, Outcome, CanSection, CanTurn, TurnTo, NamedState;
    match l
    case Api(r) => RequestKeepsKills(s, r);
    case Shuts(j, d) => ShutKills(s, j, d, k);
    case _ =>
  }

  lemma ShutKills(s: Sys, j: Kid, d: Shutting, k: Kid)
    requires CanShut(s, j, d) && k in DoShut(s, j, d).kills
    ensures || (k in s.kills && DoShut(s, j, d).kills[k] == s.kills[k])
            || (j == k && d.KillTask? && DoShut(s, j, d).kills[k] == Kill(d.n, ToStop, None, 0))
            || (j == k && !d.KillTask? && !d.SetFlag? && DoShut(s, j, d).kills[k] == KillTo(s, k, d))
  {
    hide KillTo;
  }

  /** A kill task stays, and only its own `stop` settles which instance it stopped. */
  lemma KillStays(s: Sys, l: Label, k: Kid)
    requires Enabled(s, l) && k in s.kills
    ensures k in Apply(s, l).kills && Apply(s, l).kills[k].name == s.kills[k].name
    ensures l == Shuts(k, KillStop) || Apply(s, l).kills[k].stopped == s.kills[k].stopped
  {
    hide DoRequest, DoShut, Outcome, CanShut, CanSection, CanTurn, TurnTo, NamedState;
    match l
    case Api(r) => RequestKeepsKills(s, r);
    case Shuts(j, d) => ShutKeeps(s, j, d, k);
    case _ =>
  }

  lemma ShutKeeps(s: Sys, j: Kid, d: Shutting, k: Kid)
    requires CanShut(s, j, d) && k in s.kills
    ensures k in DoShut(s, j, d).kills && DoShut(s, j, d).kills[k].name == s.kills[k].name
    ensures (j == k && d.KillStop?) || DoShut(s, j, d).kills[k].stopped == s.kills[k].stopped
  {
    hide Retarget;
    if d.KillStop? { RetargetFrame(s, s.kills[j].name, Down); }
  }

  lemma KillStep(s: Sys, l: Label)
    requires KillOk(s) && Refs(s.table, s.svc, s.ws) && Enabled(s, l)
    ensures KillOk(Apply(s, l))
  {
    var s' := Apply(s, l);
    FlagStep(s, l);
    hide Apply, Enabled, TaskOk, Refs;
    forall k | k in s'.kills ensures TaskOk(s', s'.kills[k]) {
      KillsAfter(s, l, k);
      if k in s.kills && s'.kills[k] == s.kills[k] {
        if s.kills[k].stopped.Some? { InstAny(s, l, s.kills[k].stopped.value); }
        TaskKept(s, s', s.kills[k]);
      } else if l.d.KillTask? {
        NewTask(s', s'.kills[k]);
      } else {
        ShutApplies(s, k, l.d);
        TaskMoves(s, k, l.d);
      }
    }
  }

  lemma NewTask(s: Sys, t: Kill)
    requires t.pc.ToStop? && t.stopped.None?
    ensures TaskOk(s, t)
  {
  }

  lemma ShutApplies(s: Sys, k: Kid, d: Shutting)
    requires Enabled(s, Shuts(k, d))
    ensures CanShut(s, k, d) && Apply(s, Shuts(k, d)) == DoShut(s, k, d)
  {
  }

  lemma {:induction false} RunKills(ls: seq<Label>)
    requires Exec(ls).Some?
    ensures KillOk(Exec(ls).value)
    decreases |ls|
  {
    if ls == [] {
    } else {
      RunKills(ls[..|ls| - 1]);
      RunInv(ls[..|ls| - 1]);
      KillStep(Exec(ls[..|ls| - 1]).value, ls[|ls| - 1]);
    }
  }

  // ---------------------------------------------------------------- what shutdown leaves behind

  /** A kill task that has posted to the death channel leaves the instance it stopped Down, and, unless
      that was forgotten since, without a pid or with SIGKILL sent to the pid it shows. The only way out
      is a `start` whose target write came after the task's own `stop`. */
  lemma PostedMeansStopped(ls: seq<Label>, k: Kid, i: Id)
    requires Exec(ls).Some? && k in Exec(ls).value.kills
    requires var t := Exec(ls).value.kills[k]; t.pc.Posted? && t.stopped == Some(i)
    requires Unraised(Exec(ls).value.hist, i, Exec(ls).value.kills[k].at)
    ensures var s := Exec(ls).value;
            && i in s.svc && s.svc[i].v.target.Down?
            && (Listed(s.table, s.svc, i) ==> s.svc[i].v.pid == 0 || Sigkill(i, s.svc[i].v.pid) in s.hist)
  {
    RunKills(ls);
    assert TaskOk(Exec(ls).value, Exec(ls).value.kills[k]);
  }

  /** With the flag set and no `start` past its flag check, nobody raises a target any more. */
  ghost predicate Sealed(s: Sys) {
    s.flag && s.starts == multiset{}
  }

  lemma SealedStep(s: Sys, l: Label)
    requires Sealed(s) && Enabled(s, l)
    ensures Sealed(Apply(s, l))
    ensures Apply(s, l).hist == s.hist
        || (|Apply(s, l).hist| == |s.hist| + 1 && s.hist <= Apply(s, l).hist && !Apply(s, l).hist[|s.hist|].Raise?)
  {
    hide DoRequest, DoShut, DoSection, TurnTo, CanTurn, NamedState;
    match l
    case Api(r) => SealedRequest(s, r);
    case Shuts(k, d) => SealedShut(s, k, d);
    case Sections(w, c) => SealedSection(s, w, c);
    case _ =>
  }

  lemma SealedSection(s: Sys, w: Wid, c: Section)
    requires Sealed(s) && CanSection(s, w, c)
    ensures var s' := DoSection(s, w, c);
            Sealed(s')
              && (s'.hist == s.hist || (|s'.hist| == |s.hist| + 1 && s.hist <= s'.hist && !s'.hist[|s.hist|].Raise?))
  {
    var e := Outcome(s, w, c);
    assert e.events == [] || (e.events == [e.events[0]] && !e.events[0].Raise?);
  }

  lemma SealedShut(s: Sys, k: Kid, d: Shutting)
    requires Sealed(s) && CanShut(s, k, d)
    ensures var s' := DoShut(s, k, d);
            Sealed(s')
              && (s'.hist == s.hist || (|s'.hist| == |s.hist| + 1 && s.hist <= s'.hist && !s'.hist[|s.hist|].Raise?))
  {
  }

  lemma SealedRequest(s: Sys, r: Request)
    requires Sealed(s) && CanRequest(s, r)
    ensures var s' := DoRequest(s, r);
            Sealed(s')
              && (s'.hist == s.hist || (|s'.hist| == |s.hist| + 1 && s.hist <= s'.hist && !s'.hist[|s.hist|].Raise?))
  {
    RequestKeepsKills(s, r);
    match r
    case Stop(n) =>
    case Forget(n) =>
    case _ =>
  }

  lemma ExecLast(ls: seq<Label>)
    requires Exec(ls).Some? && ls != []
    ensures Exec(ls[..|ls| - 1]).Some? && Enabled(Exec(ls[..|ls| - 1]).value, ls[|ls| - 1])
    ensures Exec(ls).value == Apply(Exec(ls[..|ls| - 1]).value, ls[|ls| - 1])
  {
  }

  ghost predicate NoRaiseSince(h: seq<Event>, h': seq<Event>) {
    h <= h' && forall b :: |h| <= b < |h'| ==> !h'[b].Raise?
  }

  lemma SealedSnoc(h: seq<Event>, s: Sys, l: Label)
    requires Sealed(s) && Enabled(s, l) && NoRaiseSince(h, s.hist)
    ensures Sealed(Apply(s, l)) && NoRaiseSince(h, Apply(s, l).hist)
  {
    SealedStep(s, l);
  }

  lemma {:induction false} SealedRun(ls: seq<Label>, more: seq<Label>)
    requires Exec(ls).Some? && Exec(ls + more).Some? && Sealed(Exec(ls).value)
    ensures Sealed(Exec(ls + more).value) && NoRaiseSince(Exec(ls).value.hist, Exec(ls + more).value.hist)
    decreases |more|
  {
    hide Exec, Apply, Enabled;
    if more == [] {
      assert ls + more == ls;
    } else {
      var init := more[..|more| - 1];
      assert (ls + more)[..|ls + more| - 1] == ls + init;
      assert (ls + more)[|ls + more| - 1] == more[|more| - 1];
      ExecLast(ls + more);
      SealedRun(ls, init);
      SealedSnoc(Exec(ls).value.hist, Exec(ls + init).value, more[|more| - 1]);
    }
  }

  /** Once the system is sealed, an instance that is Down stays Down, and is never spawned again,
      whatever happens next. */
  lemma DownForGood(ls: seq<Label>, more: seq<Label>, i: Id)
    requires Exec(ls).Some? && Exec(ls + more).Some? && Sealed(Exec(ls).value)
    requires i in Exec(ls).value.svc && Exec(ls).value.svc[i].v.target.Down?
    ensures forall b :: |Exec(ls).value.hist| <= b < |Exec(ls + more).value.hist|
              ==> !(Exec(ls + more).value.hist[b].Spawn? && Exec(ls + more).value.hist[b].id == i)
  {
    hide Exec;
    var h, h' := Exec(ls).value.hist, Exec(ls + more).value.hist;
    SealedRun(ls, more);
    RunInv(ls);
    assert Lowered(h, i);
    forall b | |h| <= b < |h'| ensures !(h'[b].Spawn? && h'[b].id == i) {
      StaysLowered(h, h'[..b], i);
      if h'[b].Spawn? { SpawnAt(ls + more, b); }
    }
  }

  lemma {:induction false} StaysLowered(h: seq<Event>, h': seq<Event>, i: Id)
    requires h <= h' && Lowered(h, i) && forall b :: |h| <= b < |h'| ==> !h'[b].Raise?
    ensures Lowered(h', i)
    decreases |h'|
  {
    if |h'| > |h| { StaysLowered(h, h'[..|h'| - 1], i); } else { assert h == h'; }
  }

  /** Put together: a service whose kill task has posted, in a sealed system, is never spawned again if no
      `start` raised it after the task's `stop`. */
  lemma ShutdownIsFinal(ls: seq<Label>, more: seq<Label>, k: Kid, i: Id)
    requires Exec(ls).Some? && Exec(ls + more).Some? && Sealed(Exec(ls).value)
    requires k in Exec(ls).value.kills && Exec(ls).value.kills[k].pc.Posted?
        && Exec(ls).value.kills[k].stopped == Some(i)
    requires Unraised(Exec(ls).value.hist, i, Exec(ls).value.kills[k].at)
    ensures forall b :: |Exec(ls).value.hist| <= b < |Exec(ls + more).value.hist|
              ==> !(Exec(ls + more).value.hist[b].Spawn? && Exec(ls + more).value.hist[b].id == i)
  {
    PostedMeansStopped(ls, k, i);
    DownForGood(ls, more, i);
  }
}
