/** The states a service really goes through, against `can_transition_to`. All writes are forced, so
    this is about reachability. Since the Blocked, Running and TestFailure writes go by name, it is about
    runs in which each of these hits the instance it is meant for. */
module StateRelation {
  import opened Basics
  import opened Service
  import opened Watch
  import opened Supervision
  import opened Trace
  import opened WatchRuns

  /** A write by name finds the writer's own instance, or nothing, and a test loop writes only while its
      watcher has a process on record; and no process is spawned while an earlier test loop is alive. */
  predicate StepOk(s: Sys, l: Label)
    requires Enabled(s, l)
  {
    match l
    case Names(w, b) =>
      && (InstOf(s, w).name in s.table ==> s.table[InstOf(s, w).name] == s.ws[w].inst)
      && (b.SetBlocked? || HasProcess(s.ws[w].pc))
    case Sections(w, c) => c.SpawnSection? ==> s.ws[w].tests == 0
    case _ => true
  }

  /** The states with a main process. */
  predicate InProcess(st: State) {
    st.Spawned? || st.Running? || st.TestFailure?
  }

  /** The writes `can_transition_to` would refuse and the code makes: respawns, and the ways out of TestFailure. */
  predicate Exempt(from: State, to: State) {
    || ((from.Success? || from.Error? || from.Failure?) && (to.Spawned? || to.Failure?))
    || (from.TestFailure? && (to.Running? || to.Success? || to.Error? || to.TestFailure?))
  }

  /** The edges a service goes along: into Blocked and out of any state without a process, by a spawn or a
      failed one from such a state, and within and out of the states with one. */
  predicate Edge(from: State, to: State) {
    match to
    case Blocked => !InProcess(from)
    case Spawned => !InProcess(from)
    case Failure => !InProcess(from)
    case Running => from.Spawned? || from.TestFailure?
    case TestFailure => from.Spawned? || from.TestFailure?
    case Success => InProcess(from)
    case Error(_) => InProcess(from)
    case Unknown => false
  }

  predicate WriteOk(x: Write) {
    Edge(x.from, x.to)
  }

  /** Of the edges taken, `can_transition_to` refuses exactly the respawns and the ways out of TestFailure. */
  lemma RefusedIffExempt(from: State, to: State)
    requires Edge(from, to)
    ensures !from.CanTransitionTo(to) <==> Exempt(from, to)
  {
  }

  /** `can_transition_to` seen from the state that is entered. */
  lemma EnteredFrom(from: State, to: State)
    ensures from.CanTransitionTo(to) <==>
              || from == Unknown || to == Unknown || to == Blocked
              || ((to == Spawned || to == Failure) && from == Blocked)
              || ((to == Running || to == TestFailure) && from == Spawned)
              || ((to == Success || to.Error?) && (from == Spawned || from == Running))
  {
  }

  predicate HasProcess(pc: Pc) {
    pc.Waiting? || pc.Reaped?
  }

  predicate StateFits(v: Svc, x: Watcher) {
    && (HasProcess(x.pc) <==> InProcess(v.state))
    && (HasProcess(x.pc) && x.tests > 0 ==> x.tests == 1 && (v.state.Spawned? || v.state.TestFailure?))
  }

  ghost predicate Coupled(svc: map<Id, Inst>, ws: map<Wid, Watcher>) {
    && (forall w :: w in ws && Active(ws[w].pc) && ws[w].inst in svc ==> StateFits(svc[ws[w].inst].v, ws[w]))
    && (forall i :: i in svc && !IsScheduled(svc, i) ==> !InProcess(svc[i].v.state))
  }

  ghost predicate WritesOk(writes: seq<Write>) {
    forall k :: 0 <= k < |writes| ==> WriteOk(writes[k])
  }

  // ---------------------------------------------------------------- preservation

  /** A watcher moves and its own instance with it. */
  lemma CoupledMove(svc: map<Id, Inst>, ws: map<Wid, Watcher>, h: seq<Event>, w: Wid, x: Watcher, v: Svc)
    requires Coupled(svc, ws) && Sup(svc, ws, h) && w in ws && ws[w].inst in svc && x.inst == ws[w].inst
    requires if Active(x.pc) then v.scheduled && StateFits(v, x)
             else if Active(ws[w].pc) then !InProcess(v.state) else v == svc[x.inst].v
    requires Active(x.pc) && !Active(ws[w].pc) ==> !IsScheduled(svc, x.inst)
    ensures Coupled(Put(svc, x.inst, v), ws[w := x])
  {
    UniqueMove(svc, ws, h, w, x);
    hide Sup;
    assert forall i :: i != x.inst ==> IsScheduled(Put(svc, x.inst, v), i) == IsScheduled(svc, i);
  }

  lemma CoupledTarget(svc: map<Id, Inst>, ws: map<Wid, Watcher>, i: Id, t: Target)
    requires Coupled(svc, ws) && i in svc
    ensures Coupled(Put(svc, i, svc[i].v.(target := t)), ws)
  {
    assert forall j :: IsScheduled(Put(svc, i, svc[i].v.(target := t)), j) == IsScheduled(svc, j);
  }

  lemma FitsAt(svc: map<Id, Inst>, ws: map<Wid, Watcher>, w: Wid)
    requires Coupled(svc, ws) && w in ws && ws[w].inst in svc
    ensures Active(ws[w].pc) ==> StateFits(svc[ws[w].inst].v, ws[w])
    ensures !IsScheduled(svc, ws[w].inst) ==> !InProcess(svc[ws[w].inst].v.state)
  {
  }

  lemma CoupledTurn(s: Sys, w: Wid, t: Turn)
    requires Coupled(s.svc, s.ws) && Sup(s.svc, s.ws, s.hist) && CanTurn(s, w, t)
    ensures var s' := DoTurn(s, w, t); Coupled(s'.svc, s'.ws)
  {
    FitsAt(s.svc, s.ws, w);
    SupAt(s.svc, s.ws, s.hist, w);
    PutSame(s.svc, s.ws[w].inst);
    hide Coupled, Sup;
    CoupledMove(s.svc, s.ws, s.hist, w, DoTurn(s, w, t).ws[w], InstOf(s, w).v);
  }

  /** Where a section takes a watcher and its instance, which fit before. */
  lemma SectionFits(s: Sys, w: Wid, c: Section)
    requires CanSection(s, w, c)
        && (Active(s.ws[w].pc) ==> InstOf(s, w).v.scheduled && StateFits(InstOf(s, w).v, s.ws[w]))
    requires !InstOf(s, w).v.scheduled ==> !InProcess(InstOf(s, w).v.state)
    requires c.SpawnSection? ==> s.ws[w].tests == 0
    ensures var v, v', x' := InstOf(s, w).v, Outcome(s, w, c).v, DoSection(s, w, c).ws[w];
            && (Active(x'.pc) ==> v'.scheduled && StateFits(v', x'))
            && (!Active(x'.pc) && Active(s.ws[w].pc) ==> !InProcess(v'.state))
            && (!Active(x'.pc) && !Active(s.ws[w].pc) ==> v' == v)
            && (Active(x'.pc) && !Active(s.ws[w].pc) ==> !v.scheduled)
  {
  }

  lemma CoupledSection(s: Sys, w: Wid, c: Section)
    requires Coupled(s.svc, s.ws) && Sup(s.svc, s.ws, s.hist)
    requires CanSection(s, w, c) && WritesOk(s.writes) && (c.SpawnSection? ==> s.ws[w].tests == 0)
    ensures var s' := DoSection(s, w, c); Coupled(s'.svc, s'.ws) && WritesOk(s'.writes)
  {
    FitsAt(s.svc, s.ws, w);
    SupAt(s.svc, s.ws, s.hist, w);
    SectionFits(s, w, c);
    SectionWrites(s, w, c);
    hide Coupled, Sup, StateFits, WritesOk, Outcome;
    CoupledMove(s.svc, s.ws, s.hist, w, DoSection(s, w, c).ws[w], Outcome(s, w, c).v);
  }

  lemma SectionWrites(s: Sys, w: Wid, c: Section)
    requires CanSection(s, w, c) && WritesOk(s.writes)
    requires Active(s.ws[w].pc) ==> StateFits(InstOf(s, w).v, s.ws[w])
    ensures WritesOk(s.writes + WritesOf(s.ws[w].inst, Outcome(s, w, c).writes))
  {
    var x := Outcome(s, w, c).writes;
    assert forall k :: 0 <= k < |x| ==> WriteOk(Write(s.ws[w].inst, x[k].from, x[k].to, x[k].cause));
  }

  /** What a write by name means for the writer, whose own instance the name is. */
  predicate NameFits(v: Svc, x: Watcher, b: ByName, x': Watcher) {
    && StateFits(v.(state := NamedState(b)), x')
    && WriteOk(Write(x.inst, v.state, NamedState(b), Named(b)))
    && (x'.pc == x.pc || (x.pc.Unmet? && x'.pc.Parked?)) && x'.tests <= x.tests
  }

  lemma NameFitsAt(s: Sys, w: Wid, b: ByName)
    requires CanName(s, w, b) && StateFits(InstOf(s, w).v, s.ws[w]) && PcOk(s.ws[w])
    requires b.SetBlocked? || HasProcess(s.ws[w].pc)
    ensures NameFits(InstOf(s, w).v, s.ws[w], b, DoName(s, w, b).ws[w])
  {
  }

  lemma WritesSnoc(writes: seq<Write>, x: Write)
    requires WritesOk(writes) && WriteOk(x)
    ensures WritesOk(writes + [x])
  {
  }

  lemma CoupledName(s: Sys, w: Wid, b: ByName)
    requires Coupled(s.svc, s.ws) && Sup(s.svc, s.ws, s.hist) && Refs(s.table, s.svc, s.ws)
    requires CanName(s, w, b) && WritesOk(s.writes) && StepOk(s, Names(w, b))
    ensures var s' := DoName(s, w, b); Coupled(s'.svc, s'.ws) && WritesOk(s'.writes)
  {
    var i, n := s.ws[w].inst, InstOf(s, w).name;
    FitsAt(s.svc, s.ws, w);
    SupAt(s.svc, s.ws, s.hist, w);
    NameFitsAt(s, w, b);
    PutSame(s.svc, i);
    hide Coupled, Sup, Refs, StateFits, WriteOk, WritesOk, NamedState, PcOk;
    WritesSnoc(s.writes, Write(i, s.svc[i].v.state, NamedState(b), Named(b)));
    if Known(s, n) {
      assert s.table[n] == i;
      CoupledMove(s.svc, s.ws, s.hist, w, DoName(s, w, b).ws[w], s.svc[i].v.(state := NamedState(b)));
    } else {
      StillFits(s.svc[i].v, s.ws[w], b, DoName(s, w, b).ws[w]);
      CoupledMove(s.svc, s.ws, s.hist, w, DoName(s, w, b).ws[w], s.svc[i].v);
    }
  }

  lemma StillFits(v: Svc, x: Watcher, b: ByName, x': Watcher)
    requires StateFits(v, x) && NameFits(v, x, b, x')
    ensures StateFits(v, x')
  {
  }

  lemma CoupledRetarget(s: Sys, n: Name, t: Target)
    requires Coupled(s.svc, s.ws)
    ensures var s' := Retarget(s, n, t); Coupled(s'.svc, s'.ws) && s'.writes == s.writes
  {
    hide Coupled;
    if Known(s, n) { CoupledTarget(s.svc, s.ws, s.table[n], t); }
  }

  lemma CoupledEntry(svc: map<Id, Inst>, ws: map<Wid, Watcher>, i: Id, x: Inst, w: Wid)
    requires Coupled(svc, ws) && w !in ws && (i in svc ==> svc[i] == x) && (i !in svc ==> x.v.state.Unknown?)
    requires forall y :: y in ws ==> ws[y].inst in svc
    ensures Coupled(svc[i := x], ws[w := Watcher(i, Entry, 0)])
  {
    assert forall j :: j in svc ==> IsScheduled(svc[i := x], j) == IsScheduled(svc, j);
  }

  lemma CoupledRequest(s: Sys, r: Request)
    requires Coupled(s.svc, s.ws) && Refs(s.table, s.svc, s.ws) && CanRequest(s, r)
    ensures var s' := DoRequest(s, r); Coupled(s'.svc, s'.ws) && s'.writes == s.writes
  {
    hide Coupled, Retarget;
    match r
    case MonitorInsert(n, c, i, w) => if n !in s.table { CoupledEntry(s.svc, s.ws, i, Inst(n, New(c)), w); }
    case StartTarget(n) => CoupledRetarget(s, n, Up);
    case StartWatch(n, w) =>
      if Known(s, n) {
        assert s.svc[s.table[n] := s.svc[s.table[n]]] == s.svc;
        CoupledEntry(s.svc, s.ws, s.table[n], s.svc[s.table[n]], w);
      }
    case Stop(n) => CoupledRetarget(s, n, Down);
    case _ =>
  }

  lemma CoupledShut(s: Sys, k: Kid, d: Shutting)
    requires Coupled(s.svc, s.ws) && CanShut(s, k, d)
    ensures var s' := DoShut(s, k, d); Coupled(s'.svc, s'.ws) && s'.writes == s.writes
  {
    hide Coupled, Retarget, KillTo;
    if d.KillStop? { CoupledRetarget(s, s.kills[k].name, Down); }
  }

  lemma CoupledStep(s: Sys, l: Label)
    requires Inv(s) && Coupled(s.svc, s.ws) && WritesOk(s.writes) && Enabled(s, l) && StepOk(s, l)
    ensures var s' := Apply(s, l); Coupled(s'.svc, s'.ws) && WritesOk(s'.writes)
  {
    hide Coupled, WritesOk, Sup, Refs, TargetOk, StateOk, Legal, DoRequest, DoTurn, DoSection, DoName, DoShut;
    match l
    case Api(r) => CoupledRequest(s, r);
    case Turns(w, t) =>
      CoupledTurn(s, w, t);
      TurnKeepsWrites(s, w, t);
    case Sections(w, c) => CoupledSection(s, w, c);
    case Names(w, b) => CoupledName(s, w, b);
    case NotifyTest(_) =>
    case Shuts(k, d) => CoupledShut(s, k, d);
  }

  lemma TurnKeepsWrites(s: Sys, w: Wid, t: Turn)
    requires CanTurn(s, w, t)
    ensures DoTurn(s, w, t).writes == s.writes
  {
  }

  /** Every step of the run is such a step. */
  ghost predicate DisciplinedRun(ls: seq<Label>) {
    forall k :: 0 <= k < |ls| ==> StepAt(ls, k)
  }

  ghost predicate StepAt(ls: seq<Label>, k: nat)
    requires k < |ls|
  {
    Exec(ls[..k]).Some? && Enabled(Exec(ls[..k]).value, ls[k]) ==> StepOk(Exec(ls[..k]).value, ls[k])
  }

  lemma {:induction false} RunCoupled(ls: seq<Label>)
    requires Exec(ls).Some? && DisciplinedRun(ls)
    ensures Coupled(Exec(ls).value.svc, Exec(ls).value.ws) && WritesOk(Exec(ls).value.writes)
    decreases |ls|
  {
    hide Coupled, WritesOk, StepOk, Enabled, Apply, Inv;
    if ls == [] {
      Empty();
    } else {
      var init := ls[..|ls| - 1];
      forall k | 0 <= k < |init| ensures StepAt(init, k) {
        assert StepAt(ls, k);
        assert init[..k] == ls[..k] && init[k] == ls[k];
      }
      RunCoupled(init);
      RunInv(init);
      assert StepAt(ls, |ls| - 1);
      CoupledStep(Exec(init).value, ls[|ls| - 1]);
    }
  }

  lemma Empty()
    ensures Coupled(Init().svc, Init().ws) && WritesOk(Init().writes)
  {
  }

  /** In every such run the pid is nonzero exactly in the states Spawned, Running and TestFailure, every forced
      write is along an edge, and `can_transition_to` would refuse exactly those that are a respawn or a way
      out of TestFailure. */
  lemma LifecycleRelation(ls: seq<Label>)
    requires Exec(ls).Some? && DisciplinedRun(ls)
    ensures forall i :: i in Exec(ls).value.svc ==>
              (Exec(ls).value.svc[i].v.pid != 0 <==> InProcess(Exec(ls).value.svc[i].v.state))
    ensures forall k :: 0 <= k < |Exec(ls).value.writes| ==>
              var x := Exec(ls).value.writes[k];
              Edge(x.from, x.to) && (!x.from.CanTransitionTo(x.to) <==> Exempt(x.from, x.to))
  {
    RunCoupled(ls);
    var s := Exec(ls).value;
    RunInv(ls);
    hide Exec;
    forall k | 0 <= k < |s.writes|
      ensures var x := s.writes[k]; Edge(x.from, x.to) && (!x.from.CanTransitionTo(x.to) <==> Exempt(x.from, x.to))
    {
      assert WriteOk(s.writes[k]);
      RefusedIffExempt(s.writes[k].from, s.writes[k].to);
    }
    forall i | i in s.svc ensures s.svc[i].v.pid != 0 <==> InProcess(s.svc[i].v.state) {
      if IsScheduled(s.svc, i) {
        var w :| w in s.ws && Active(s.ws[w].pc) && s.ws[w].inst == i;
        SupAt(s.svc, s.ws, s.hist, w);
        FitsAt(s.svc, s.ws, w);
      }
    }
  }
}
