/** No lost wakeup: why a watcher that stays parked has not missed the notification it waits for. */
module Wakeup {
  import opened Basics
  import opened Service
  import opened Watch
  import opened Supervision
  import opened Trace
  import opened WatchRuns

  /** A one-shot named `n` has finished and its watcher still owes the `notify_waiters`. */
  ghost predicate WatcherOwes(svc: map<Id, Inst>, ws: map<Wid, Watcher>, n: Name) {
    exists x :: x in ws && ws[x].pc.Owing? && ws[x].inst in svc && svc[ws[x].inst].name == n
  }

  /** Dependency `n` ended in Success without being a one-shot: the one satisfying change that notifies nobody. */
  predicate SilentSuccess(table: map<Name, Id>, svc: map<Id, Inst>, n: Name) {
    n in table && table[n] in svc && svc[table[n]].v.state.Success? && !svc[table[n]].v.config.oneShot
  }

  /** Nothing that should have woken a watcher waiting for `n` has been missed. */
  ghost predicate Excused(s: Sys, n: Name) {
    || !Satisfied(s.table, s.svc, n)
    || n in s.owed
    || WatcherOwes(s.svc, s.ws, n)
    || SilentSuccess(s.table, s.svc, n)
  }

  /** The dependency a watcher found unsatisfied, with the epoch of its future. */
  predicate WaitsOn(pc: Pc) {
    pc.Unmet? || pc.Parked?
  }

  ghost predicate WatcherOk(s: Sys, w: Wid)
    requires w in s.ws
  {
    && (s.ws[w].pc.Check? ==> s.ws[w].pc.epoch <= s.epoch)
    && (WaitsOn(s.ws[w].pc) ==>
          && s.ws[w].pc.epoch <= s.epoch
          && s.ws[w].inst in s.svc && s.ws[w].pc.dep < |s.svc[s.ws[w].inst].v.config.after|
          && (s.ws[w].pc.epoch == s.epoch ==> Excused(s, s.svc[s.ws[w].inst].v.config.after[s.ws[w].pc.dep])))
  }

  ghost predicate WakeOk(s: Sys) {
    forall w :: w in s.ws ==> WatcherOk(s, w)
  }

  lemma OwesStays(svc: map<Id, Inst>, ws: map<Wid, Watcher>, svc': map<Id, Inst>, ws': map<Wid, Watcher>, n: Name)
    requires WatcherOwes(svc, ws, n) && Grows(svc, svc')
    requires forall x :: x in ws && ws[x].pc.Owing? ==> x in ws' && ws'[x].pc.Owing? && ws'[x].inst == ws[x].inst
    ensures WatcherOwes(svc', ws', n)
  {
    var x :| x in ws && ws[x].pc.Owing? && ws[x].inst in svc && svc[ws[x].inst].name == n;
    assert x in ws' && ws'[x].inst in svc';
  }

  lemma ExcusedRetarget(s: Sys, n: Name, t: Target, m: Name)
    requires Excused(s, m)
    ensures Excused(Retarget(s, n, t), m)
  {
    var s' := Retarget(s, n, t);
    FramedRetarget(s, n, t);
    if WatcherOwes(s.svc, s.ws, m) { OwesStays(s.svc, s.ws, s'.svc, s'.ws, m); }
  }

  /** The table changes for other names only, or `m` is not satisfied any more. */
  lemma ExcusedTable(s: Sys, s': Sys, m: Name)
    requires Excused(s, m) && Framed(s, s') && s'.owed == s.owed
    requires forall x :: x in s.ws ==> x in s'.ws && s'.ws[x] == s.ws[x]
    requires Satisfied(s'.table, s'.svc, m) ==>
        m in s.table && s'.table[m] == s.table[m] && s.table[m] in s.svc && s'.svc[s.table[m]] == s.svc[s.table[m]]
    ensures Excused(s', m)
  {
    if WatcherOwes(s.svc, s.ws, m) { OwesStays(s.svc, s.ws, s'.svc, s'.ws, m); }
  }

  lemma ExcusedInsert(s: Sys, n: Name, c: Config, i: Id, w: Wid, m: Name)
    requires CanRequest(s, MonitorInsert(n, c, i, w)) && Excused(s, m)
    ensures Excused(DoRequest(s, MonitorInsert(n, c, i, w)), m)
  {
    FramedRequest(s, MonitorInsert(n, c, i, w));
    hide Excused, Framed;
    ExcusedTable(s, DoRequest(s, MonitorInsert(n, c, i, w)), m);
  }

  lemma ExcusedWatch(s: Sys, n: Name, w: Wid, m: Name)
    requires CanRequest(s, StartWatch(n, w)) && Excused(s, m)
    ensures Excused(DoRequest(s, StartWatch(n, w)), m)
  {
    FramedRequest(s, StartWatch(n, w));
    hide Excused, Framed, Satisfied;
    ExcusedTable(s, DoRequest(s, StartWatch(n, w)), m);
  }

  lemma ExcusedForget(s: Sys, n: Name, m: Name)
    requires Excused(s, m)
    ensures Excused(DoRequest(s, Forget(n)), m)
  {
    FramedForget(s, n);
    hide Excused, Framed;
    ExcusedTable(s, DoRequest(s, Forget(n)), m);
  }

  lemma ExcusedRequest(s: Sys, r: Request, m: Name)
    requires CanRequest(s, r) && Excused(s, m)
    ensures Excused(DoRequest(s, r), m)
  {
    hide Excused, Retarget;
    match r
    case MonitorInsert(n, c, i, w) => ExcusedInsert(s, n, c, i, w, m);
    case StartTarget(n) =>
      ExcusedRetarget(s, n, Up, m);
      ExcusedSame(Retarget(s, n, Up), DoRequest(s, r), m);
    case StartWatch(n, w) => ExcusedWatch(s, n, w, m);
    case Stop(n) => ExcusedRetarget(s, n, Down, m);
    case Forget(n) => ExcusedForget(s, n, m);
    case _ => ExcusedSame(s, DoRequest(s, r), m);
  }

  lemma ExcusedSame(s: Sys, s': Sys, m: Name)
    requires Excused(s, m) && s'.table == s.table && s'.svc == s.svc && s'.ws == s.ws && s'.owed == s.owed
    ensures Excused(s', m)
  {
  }

  lemma ExcusedTurn(s: Sys, w: Wid, t: Turn, m: Name)
    requires CanTurn(s, w, t) && !t.NotifyExit? && Excused(s, m)
    ensures Excused(DoTurn(s, w, t), m)
  {
    var s' := DoTurn(s, w, t);
    if WatcherOwes(s.svc, s.ws, m) { OwesStays(s.svc, s.ws, s'.svc, s'.ws, m); }
  }

  /** Only an exit section can make a dependency satisfied, its own instance, and then a one-shot's watcher
      owes a notification. */
  lemma SectionStanding(s: Sys, w: Wid, c: Section, m: Name)
    requires Refs(s.table, s.svc, s.ws) && CanSection(s, w, c) && Satisfied(s.table, DoSection(s, w, c).svc, m)
    ensures var s' := DoSection(s, w, c);
            || (Satisfied(s.table, s.svc, m)
              && (SilentSuccess(s.table, s.svc, m) ==> SilentSuccess(s.table, s'.svc, m)))
            || SilentSuccess(s.table, s'.svc, m)
            || (s'.ws[w].pc.Owing? && s'.svc[s'.ws[w].inst].name == m)
  {
  }

  lemma ExcusedSection(s: Sys, w: Wid, c: Section, m: Name)
    requires Refs(s.table, s.svc, s.ws) && CanSection(s, w, c) && Excused(s, m)
    ensures Excused(DoSection(s, w, c), m)
  {
    var s' := DoSection(s, w, c);
    FramedSection(s, w, c);
    if WatcherOwes(s.svc, s.ws, m) {
      OwesStays(s.svc, s.ws, s'.svc, s'.ws, m);
    } else if Satisfied(s'.table, s'.svc, m) {
      SectionStanding(s, w, c, m);
      hide Satisfied, SilentSuccess, Outcome, CanSection;
    }
  }

  lemma WriteStanding(s: Sys, n: Name, st: State, c: Cause, m: Name)
    requires Refs(s.table, s.svc, s.ws) && !st.Success?
    ensures var s' := SetStateByName(s, n, st, c);
            && (m != n ==> Satisfied(s'.table, s'.svc, m) == Satisfied(s.table, s.svc, m)
                           && SilentSuccess(s'.table, s'.svc, m) == SilentSuccess(s.table, s.svc, m))
            && (m == n && !st.Running? ==> !Satisfied(s'.table, s'.svc, m))
  {
  }

  lemma ExcusedName(s: Sys, w: Wid, b: ByName, m: Name)
    requires Refs(s.table, s.svc, s.ws) && CanName(s, w, b) && Excused(s, m)
    ensures Excused(DoName(s, w, b), m)
  {
    var s' := DoName(s, w, b);
    FramedName(s, w, b);
    if WatcherOwes(s.svc, s.ws, m) {
      OwesStays(s.svc, s.ws, s'.svc, s'.ws, m);
    } else {
      WriteStanding(s, InstOf(s, w).name, NamedState(b), Named(b), m);
      hide Satisfied, SilentSuccess, SetStateByName, WatcherOwes, Framed;
    }
  }

  lemma ExcusedShut(s: Sys, k: Kid, d: Shutting, m: Name)
    requires CanShut(s, k, d) && Excused(s, m)
    ensures Excused(DoShut(s, k, d), m)
  {
    if d.KillStop? { ExcusedRetarget(s, s.kills[k].name, Down, m); }
  }

  lemma ExcusedStep(s: Sys, l: Label, m: Name)
    requires Inv(s) && Enabled(s, l) && Excused(s, m) && Apply(s, l).epoch == s.epoch
    ensures Excused(Apply(s, l), m)
  {
    hide Excused, Sup, Refs, TargetOk, StateOk, Legal, DoRequest, DoSection, DoName, DoShut;
    match l
    case Api(r) => ExcusedRequest(s, r, m);
    case Turns(w, t) => ExcusedTurn(s, w, t, m);
    case Sections(w, c) => ExcusedSection(s, w, c, m);
    case Names(w, b) => ExcusedName(s, w, b, m);
    case NotifyTest(_) =>
    case Shuts(k, d) => ExcusedShut(s, k, d, m);
  }

  /** How a watcher comes to wait, and that the epoch only grows. */
  ghost predicate Waits(s: Sys, s': Sys, w: Wid) {
    && s.epoch <= s'.epoch
    && (w in s'.ws && (s'.ws[w].pc.Check? || WaitsOn(s'.ws[w].pc)) ==>
          && w in s.ws && s.ws[w].inst in s.svc && s'.ws[w].inst == s.ws[w].inst
          && var pc, pc' := s.ws[w].pc, s'.ws[w].pc;
             && (pc'.Check? ==> (pc.Check? && pc.epoch == pc'.epoch) || pc'.epoch == s.epoch)
             && (WaitsOn(pc') ==>
                   || (WaitsOn(pc) && pc.epoch == pc'.epoch && pc.dep == pc'.dep)
                   || (pc.Check? && pc.epoch == pc'.epoch && s'.svc == s.svc && s'.table == s.table
                       && pc'.dep < |s.svc[s.ws[w].inst].v.config.after|
                       && !Satisfied(s.table, s.svc, s.svc[s.ws[w].inst].v.config.after[pc'.dep]))))
  }

  lemma WaitsTurn(s: Sys, x: Wid, t: Turn, w: Wid)
    requires Refs(s.table, s.svc, s.ws) && CanTurn(s, x, t)
    ensures Waits(s, DoTurn(s, x, t), w)
  {
  }

  lemma WaitsSection(s: Sys, x: Wid, c: Section, w: Wid)
    requires Refs(s.table, s.svc, s.ws) && CanSection(s, x, c)
    ensures Waits(s, DoSection(s, x, c), w)
  {
  }

  /** Watchers wait as before, apart from one that parks. */
  lemma WaitsAsBefore(s: Sys, s': Sys, w: Wid)
    requires Refs(s.table, s.svc, s.ws) && s.epoch <= s'.epoch
    requires w in s'.ws ==>
      || s'.ws[w].pc.Entry?
      || (w in s.ws && s'.ws[w].inst == s.ws[w].inst && s'.ws[w].pc == s.ws[w].pc)
      || (w in s.ws && s'.ws[w].inst == s.ws[w].inst && s.ws[w].pc.Unmet?
        && s'.ws[w].pc == Parked(s.ws[w].pc.epoch, s.ws[w].pc.dep))
    ensures Waits(s, s', w)
  {
  }

  lemma WaitsStep(s: Sys, l: Label, w: Wid)
    requires Refs(s.table, s.svc, s.ws) && Enabled(s, l)
    ensures Waits(s, Apply(s, l), w)
  {
    hide Waits, Refs, DoTurn, DoSection, CanTurn, CanSection, NamedState;
    match l
    case Turns(x, t) => WaitsTurn(s, x, t, w);
    case Sections(x, c) => WaitsSection(s, x, c, w);
    case Api(r) => WaitsRequest(s, r, w);
    case _ => WaitsAsBefore(s, Apply(s, l), w);
  }

  lemma WaitsRequest(s: Sys, r: Request, w: Wid)
    requires Refs(s.table, s.svc, s.ws) && CanRequest(s, r)
    ensures Waits(s, DoRequest(s, r), w)
  {
    hide Waits, Refs;
    WaitsAsBefore(s, DoRequest(s, r), w);
  }

  /** The dependency a waiting watcher will wait for after the step is excused: it was, or was just checked. */
  lemma WatcherStep(s: Sys, l: Label, w: Wid)
    requires Inv(s) && Enabled(s, l) && w in Apply(s, l).ws
    requires w in s.ws ==> WatcherOk(s, w)
    ensures WatcherOk(Apply(s, l), w)
  {
    var s' := Apply(s, l);
    FramedStep(s, l);
    WaitsStep(s, l, w);
    hide Refs, Sup, TargetOk, StateOk, Legal, Apply, Enabled, Excused, Satisfied;
    if WaitsOn(s'.ws[w].pc) && s'.ws[w].pc.epoch == s'.epoch {
      var n := s.svc[s.ws[w].inst].v.config.after[s'.ws[w].pc.dep];
      if WaitsOn(s.ws[w].pc) && s.ws[w].pc.epoch == s'.epoch && s.ws[w].pc.dep == s'.ws[w].pc.dep {
        ExcusedStep(s, l, n);
      } else {
        NotSatisfied(s', n);
      }
    }
  }

  lemma WakeStep(s: Sys, l: Label)
    requires Inv(s) && WakeOk(s) && Enabled(s, l)
    ensures WakeOk(Apply(s, l))
  {
    hide Inv, WatcherOk, Apply, Enabled;
    forall w | w in Apply(s, l).ws ensures WatcherOk(Apply(s, l), w) { WatcherStep(s, l, w); }
  }

  lemma NotSatisfied(s: Sys, n: Name)
    requires !Satisfied(s.table, s.svc, n)
    ensures Excused(s, n)
  {
  }

  lemma {:induction false} RunWake(ls: seq<Label>)
    requires Exec(ls).Some?
    ensures WakeOk(Exec(ls).value)
    decreases |ls|
  {
    if ls == [] {
    } else {
      RunWake(ls[..|ls| - 1]);
      RunInv(ls[..|ls| - 1]);
      WakeStep(Exec(ls[..|ls| - 1]).value, ls[|ls| - 1]);
    }
  }

  /** A watcher is parked on a future that has not fired although all its dependencies are satisfied:
      then a `notify_waiters` is still owed, by the test loop or the one-shot watcher of a service it
      depends on, or one of its dependencies is not a one-shot and exited into Success. */
  lemma NoLostWakeup(ls: seq<Label>, w: Wid)
    requires Exec(ls).Some?
    requires var s := Exec(ls).value;
             && w in s.ws && s.ws[w].inst in s.svc && s.ws[w].pc.Parked? && s.ws[w].pc.epoch >= s.epoch
             && forall n :: n in s.svc[s.ws[w].inst].v.config.after ==> Satisfied(s.table, s.svc, n)
    ensures var s := Exec(ls).value;
            exists n :: n in s.svc[s.ws[w].inst].v.config.after
              && (Enabled(s, NotifyTest(n)) || WatcherOwes(s.svc, s.ws, n) || SilentSuccess(s.table, s.svc, n))
  {
    hide Exec;
    RunWake(ls);
    var s := Exec(ls).value;
    var n := s.svc[s.ws[w].inst].v.config.after[s.ws[w].pc.dep];
    assert Satisfied(s.table, s.svc, n);
    assert Excused(s, n);
  }
}
