/** What may precede a spawn: the invariant that ties the recorded history to the state. */
module Trace {
  import opened Basics
  import opened Service
  import opened Watch
  import opened Supervision

  /** The last target write of `i` set it Down. */
  predicate Lowered(h: seq<Event>, i: Id) {
    if h == [] then false else
    match h[|h| - 1]
    case Lower(j, _) => i == j || Lowered(h[..|h| - 1], i)
    case Raise(j) => i != j && Lowered(h[..|h| - 1], i)
    case _ => Lowered(h[..|h| - 1], i)
  }

  ghost predicate NameSpawned(h: seq<Event>, n: Name) {
    exists e :: e in h && e.Spawn? && e.name == n
  }

  ghost predicate ExitedOk(h: seq<Event>, i: Id) {
    Exit(i, ExitCode(0)) in h
  }

  /** Instance `j` answers for dependency `n`: something of that name was spawned before, and if it is
      a one-shot, a process of this very instance was delivered exit code 0. */
  ghost predicate DepOk(svc: map<Id, Inst>, h: seq<Event>, n: Name, j: Id) {
    j in svc && svc[j].name == n && NameSpawned(h, n) && (svc[j].v.config.oneShot ==> ExitedOk(h, j))
  }

  ghost predicate DepsOk(svc: map<Id, Inst>, h: seq<Event>, after: seq<Name>, seen: seq<Id>) {
    |seen| <= |after| && forall d :: 0 <= d < |seen| ==> DepOk(svc, h, after[d], seen[d])
  }

  /** `i` may be spawned after `h`: its target is Up, it has no unreaped process, it was not forgotten,
      and every name of its `after` list is answered for. */
  ghost predicate LegalSpawn(svc: map<Id, Inst>, h: seq<Event>, i: Id, n: Name, deps: seq<Id>) {
    && !Lowered(h, i) && !Live(h, i) && Remove(i) !in h
    && i in svc && svc[i].name == n
    && DepsOk(svc, h, svc[i].v.config.after, deps) && |deps| == |svc[i].v.config.after|
  }

  ghost predicate Legal(svc: map<Id, Inst>, h: seq<Event>) {
    forall k :: 0 <= k < |h| && h[k].Spawn? ==> LegalSpawn(svc, h[..k], h[k].id, h[k].name, h[k].deps)
  }

  predicate Listed(table: map<Name, Id>, svc: map<Id, Inst>, i: Id) {
    i in svc && svc[i].name in table && table[svc[i].name] == i
  }

  /** Targets follow the history, and an instance out of the table stays Down without a process. */
  ghost predicate TargetOk(table: map<Name, Id>, svc: map<Id, Inst>, h: seq<Event>) {
    && (forall i :: i in svc ==> (svc[i].v.target.Down? <==> Lowered(h, i)))
    && (forall i :: i !in svc ==> !Lowered(h, i))
    && (forall i :: Remove(i) in h ==> i in svc && !Listed(table, svc, i))
    && (forall i :: i in svc && !Listed(table, svc, i) ==> Forgettable(svc[i].v))
  }

  ghost predicate InstOk(h: seq<Event>, i: Id, x: Inst) {
    && (x.v.state.Running? || x.v.state.Success? ==> NameSpawned(h, x.name))
    && (x.v.state.Success? ==> ExitedOk(h, i))
  }

  /** The status a watcher has been delivered. */
  function Delivered(pc: Pc): Option<WaitStatus> {
    match pc case Waiting(_, r) => r case Reaped(_, st) => Some(st) case _ => None
  }

  ghost predicate ProcOk(svc: map<Id, Inst>, h: seq<Event>, x: Watcher) {
    && x.inst in svc
    && (x.pc.Waiting? || x.pc.Reaped? || x.tests > 0 ==> NameSpawned(h, svc[x.inst].name))
    && (Delivered(x.pc).Some? && Succeeded(Delivered(x.pc).value) ==> ExitedOk(h, x.inst))
  }

  ghost predicate SeenOk(svc: map<Id, Inst>, h: seq<Event>, x: Watcher) {
    && x.inst in svc
    && (x.pc.Check? ==> DepsOk(svc, h, svc[x.inst].v.config.after, x.pc.seen))
    && (x.pc.Ready? ==>
      DepsOk(svc, h, svc[x.inst].v.config.after, x.pc.seen) && |x.pc.seen| == |svc[x.inst].v.config.after|)
  }

  ghost predicate StateOk(svc: map<Id, Inst>, ws: map<Wid, Watcher>, h: seq<Event>) {
    && (forall i :: i in svc ==> InstOk(h, i, svc[i]))
    && (forall w :: w in ws ==> ProcOk(svc, h, ws[w]) && SeenOk(svc, h, ws[w]))
  }

  // ---------------------------------------------------------------- histories only grow

  lemma SnocLowered(h: seq<Event>, e: Event, i: Id)
    ensures Lowered(h + [e], i) ==
              if e.Lower? && e.id == i then true else if e.Raise? && e.id == i then false else Lowered(h, i)
  {
    assert (h + [e])[..|h|] == h;
  }

  lemma DepsMono(svc: map<Id, Inst>, svc': map<Id, Inst>, h: seq<Event>, h': seq<Event>, after: seq<Name>,
      seen: seq<Id>)
    requires Grows(svc, svc') && h <= h' && DepsOk(svc, h, after, seen)
    ensures DepsOk(svc', h', after, seen)
  {
    forall d | 0 <= d < |seen| ensures DepOk(svc', h', after[d], seen[d]) {
      NameMono(h, h', after[d]);
      assert DepOk(svc, h, after[d], seen[d]);
    }
  }

  lemma NameMono(h: seq<Event>, h': seq<Event>, n: Name)
    requires h <= h'
    ensures NameSpawned(h, n) ==> NameSpawned(h', n)
    ensures forall e :: e in h ==> e in h'
  {
    forall e | e in h ensures e in h' {
      var k :| 0 <= k < |h| && h[k] == e;
      assert h'[k] == e;
    }
  }

  lemma WatcherMono(svc: map<Id, Inst>, svc': map<Id, Inst>, h: seq<Event>, h': seq<Event>, x: Watcher)
    requires Grows(svc, svc') && h <= h' && ProcOk(svc, h, x) && SeenOk(svc, h, x)
    ensures ProcOk(svc', h', x) && SeenOk(svc', h', x)
  {
    NameMono(h, h', svc[x.inst].name);
    if x.pc.Check? || x.pc.Ready? { DepsMono(svc, svc', h, h', svc[x.inst].v.config.after, x.pc.seen); }
  }

  lemma InstMono(h: seq<Event>, h': seq<Event>, i: Id, x: Inst)
    requires h <= h' && InstOk(h, i, x)
    ensures InstOk(h', i, x)
  {
    NameMono(h, h', x.name);
  }

  /** It is enough to look at the instances and watchers that changed. */
  lemma StateFrame(svc: map<Id, Inst>, ws: map<Wid, Watcher>, h: seq<Event>, svc': map<Id, Inst>,
                   ws': map<Wid, Watcher>, h': seq<Event>)
    requires StateOk(svc, ws, h) && Grows(svc, svc') && h <= h'
    requires forall i :: i in svc' && !(i in svc && svc[i] == svc'[i]) ==> InstOk(h', i, svc'[i])
    requires forall w :: w in ws' && !(w in ws && ws[w] == ws'[w]) ==>
        ProcOk(svc', h', ws'[w]) && SeenOk(svc', h', ws'[w])
    ensures StateOk(svc', ws', h')
  {
    hide InstOk, ProcOk, SeenOk, Grows;
    forall i | i in svc' ensures InstOk(h', i, svc'[i]) {
      if i in svc && svc[i] == svc'[i] { InstMono(h, h', i, svc[i]); }
    }
    forall w | w in ws' ensures ProcOk(svc', h', ws'[w]) && SeenOk(svc', h', ws'[w]) {
      if w in ws && ws[w] == ws'[w] { WatcherMono(svc, svc', h, h', ws[w]); }
    }
  }

  lemma LegalMono(svc: map<Id, Inst>, svc': map<Id, Inst>, h: seq<Event>)
    requires Legal(svc, h) && Grows(svc, svc')
    ensures Legal(svc', h)
  {
    forall k | 0 <= k < |h| && h[k].Spawn? ensures LegalSpawn(svc', h[..k], h[k].id, h[k].name, h[k].deps) {
      assert LegalSpawn(svc, h[..k], h[k].id, h[k].name, h[k].deps);
      DepsMono(svc, svc', h[..k], h[..k], svc[h[k].id].v.config.after, h[k].deps);
    }
  }

  lemma LegalSnoc(svc: map<Id, Inst>, h: seq<Event>, e: Event)
    requires Legal(svc, h) && (e.Spawn? ==> LegalSpawn(svc, h, e.id, e.name, e.deps))
    ensures Legal(svc, h + [e])
  {
    var h' := h + [e];
    forall k | 0 <= k < |h'| && h'[k].Spawn? ensures LegalSpawn(svc, h'[..k], h'[k].id, h'[k].name, h'[k].deps) {
      if k < |h| { assert h'[..k] == h[..k]; } else { assert h'[..k] == h; }
    }
  }

  // ---------------------------------------------------------------- targets

  lemma TargetEvent(table: map<Name, Id>, svc: map<Id, Inst>, h: seq<Event>, e: Event)
    requires TargetOk(table, svc, h) && !e.Lower? && !e.Raise? && !e.Remove?
    ensures TargetOk(table, svc, h + [e])
  {
    forall i ensures Lowered(h + [e], i) == Lowered(h, i) { SnocLowered(h, e, i); }
  }

  /** The target stays, and a Down instance without a process does not get one. */
  lemma TargetPut(table: map<Name, Id>, svc: map<Id, Inst>, h: seq<Event>, i: Id, v: Svc)
    requires TargetOk(table, svc, h) && i in svc && v.target == svc[i].v.target
    requires Forgettable(svc[i].v) ==> v.pid == 0
    ensures TargetOk(table, Put(svc, i, v), h)
  {
    assert forall j :: Listed(table, Put(svc, i, v), j) == Listed(table, svc, j);
  }

  lemma TargetRetarget(s: Sys, n: Name, t: Target)
    requires TargetOk(s.table, s.svc, s.hist) && Refs(s.table, s.svc, s.ws)
    ensures var s' := Retarget(s, n, t); TargetOk(s'.table, s'.svc, s'.hist)
  {
    if Known(s, n) {
      var i := s.table[n];
      var s' := Retarget(s, n, t);
      var e := if t.Down? then Lower(i, s.svc[i].v.pid) else Raise(i);
      forall j
        ensures Lowered(s'.hist, j) == if j == i then t.Down? else Lowered(s.hist, j)
      {
        SnocLowered(s.hist, e, j);
      }
      assert forall j :: Listed(s.table, s'.svc, j) == Listed(s.table, s.svc, j);
      assert Listed(s.table, s.svc, i);
    }
  }

  lemma TargetNew(table: map<Name, Id>, svc: map<Id, Inst>, h: seq<Event>, n: Name, c: Config, i: Id)
    requires TargetOk(table, svc, h) && n !in table && i !in svc && Refs(table, svc, map[])
    ensures TargetOk(table[n := i], svc[i := Inst(n, New(c))], h)
  {
    var table', svc' := table[n := i], svc[i := Inst(n, New(c))];
    forall j | j in svc ensures Listed(table', svc', j) == Listed(table, svc, j) { }
    assert Listed(table', svc', i);
  }

  lemma TargetForget(s: Sys, n: Name)
    requires TargetOk(s.table, s.svc, s.hist) && Refs(s.table, s.svc, s.ws)
    ensures var s' := DoRequest(s, Forget(n)); TargetOk(s'.table, s'.svc, s'.hist)
  {
    if Known(s, n) && Forgettable(s.svc[s.table[n]].v) {
      var i := s.table[n];
      var s' := DoRequest(s, Forget(n));
      forall j ensures Lowered(s'.hist, j) == Lowered(s.hist, j) { SnocLowered(s.hist, Remove(i), j); }
      forall j ensures Listed(s'.table, s'.svc, j) == (j != i && Listed(s.table, s.svc, j)) { }
    }
  }

  lemma TargetRequest(s: Sys, r: Request)
    requires TargetOk(s.table, s.svc, s.hist) && Refs(s.table, s.svc, s.ws) && CanRequest(s, r)
    ensures var s' := DoRequest(s, r); TargetOk(s'.table, s'.svc, s'.hist)
  {
    hide TargetOk, Retarget;
    match r
    case MonitorInsert(n, c, i, w) => if n !in s.table { TargetNew(s.table, s.svc, s.hist, n, c, i); }
    case StartTarget(n) => TargetRetarget(s, n, Up);
    case Stop(n) => TargetRetarget(s, n, Down);
    case Forget(n) => TargetForget(s, n);
    case _ =>
  }

  lemma TargetSection(s: Sys, w: Wid, c: Section)
    requires TargetOk(s.table, s.svc, s.hist) && CanSection(s, w, c)
    ensures var s' := DoSection(s, w, c); TargetOk(s'.table, s'.svc, s'.hist)
  {
    hide TargetOk;
    var i, e := s.ws[w].inst, Outcome(s, w, c);
    TargetPut(s.table, s.svc, s.hist, i, e.v);
    if e.events == [] {
      assert s.hist + e.events == s.hist;
    } else {
      assert e.events == [e.events[0]];
      TargetEvent(s.table, Put(s.svc, i, e.v), s.hist, e.events[0]);
    }
  }

  lemma TargetName(s: Sys, w: Wid, b: ByName)
    requires TargetOk(s.table, s.svc, s.hist) && CanName(s, w, b)
    ensures var s' := DoName(s, w, b); TargetOk(s'.table, s'.svc, s'.hist)
  {
    hide TargetOk, NamedState;
    var n := InstOf(s, w).name;
    if Known(s, n) {
      TargetPut(s.table, s.svc, s.hist, s.table[n], s.svc[s.table[n]].v.(state := NamedState(b)));
    }
  }

  lemma TargetShut(s: Sys, k: Kid, d: Shutting)
    requires TargetOk(s.table, s.svc, s.hist) && Refs(s.table, s.svc, s.ws) && CanShut(s, k, d)
    ensures var s' := DoShut(s, k, d); TargetOk(s'.table, s'.svc, s'.hist)
  {
    hide TargetOk, Retarget;
    match d
    case SetFlag => TargetEvent(s.table, s.svc, s.hist, Shut);
    case KillStop => TargetRetarget(s, s.kills[k].name, Down);
    case KillSignal =>
      var n := s.kills[k].name;
      if PidByName(s, n) != 0 { TargetEvent(s.table, s.svc, s.hist, Sigkill(s.table[n], PidByName(s, n))); }
    case _ =>
  }

  lemma TargetStep(s: Sys, l: Label)
    requires TargetOk(s.table, s.svc, s.hist) && Refs(s.table, s.svc, s.ws) && Enabled(s, l)
    ensures var s' := Apply(s, l); TargetOk(s'.table, s'.svc, s'.hist)
  {
    hide TargetOk, DoRequest, DoSection, DoName, DoShut;
    match l
    case Api(r) => TargetRequest(s, r);
    case Turns(w, t) =>
    case Sections(w, c) => TargetSection(s, w, c);
    case Names(w, b) => TargetName(s, w, b);
    case NotifyTest(_) =>
    case Shuts(k, d) => TargetShut(s, k, d);
  }

  // ---------------------------------------------------------------- states and checks

  lemma StateTurn(s: Sys, w: Wid, t: Turn)
    requires StateOk(s.svc, s.ws, s.hist) && Refs(s.table, s.svc, s.ws) && CanTurn(s, w, t)
    ensures var s' := DoTurn(s, w, t); StateOk(s'.svc, s'.ws, s'.hist)
  {
    var s' := DoTurn(s, w, t);
    assert ProcOk(s.svc, s.hist, s.ws[w]) && SeenOk(s.svc, s.hist, s.ws[w]);
    if t.ReadDep? { ReadDepOk(s, w); }
    assert ProcOk(s'.svc, s'.hist, s'.ws[w]) && SeenOk(s'.svc, s'.hist, s'.ws[w]);
    hide StateOk, ProcOk, SeenOk, TurnTo, CanTurn;
    StateFrame(s.svc, s.ws, s.hist, s'.svc, s'.ws, s'.hist);
  }

  lemma ReadDepOk(s: Sys, w: Wid)
    requires StateOk(s.svc, s.ws, s.hist) && Refs(s.table, s.svc, s.ws) && CanTurn(s, w, ReadDep)
    ensures SeenOk(s.svc, s.hist, DoTurn(s, w, ReadDep).ws[w])
  {
    var x, after := s.ws[w], InstOf(s, w).v.config.after;
    assert SeenOk(s.svc, s.hist, x);
    if |x.pc.seen| < |after| && Satisfied(s.table, s.svc, after[|x.pc.seen|]) {
      var j := s.table[after[|x.pc.seen|]];
      assert InstOk(s.hist, j, s.svc[j]);
    }
  }

  lemma StateSection(s: Sys, w: Wid, c: Section)
    requires StateOk(s.svc, s.ws, s.hist) && CanSection(s, w, c)
    ensures var s' := DoSection(s, w, c); StateOk(s'.svc, s'.ws, s'.hist)
  {
    var s', i := DoSection(s, w, c), s.ws[w].inst;
    assert ProcOk(s.svc, s.hist, s.ws[w]) && InstOk(s.hist, i, s.svc[i]);
    NameMono(s.hist, s'.hist, s.svc[i].name);
    SectionKeepsConfig(s, w, c);
    SectionInstOk(s, w, c);
    hide StateOk, Outcome, InstOk, ProcOk, SeenOk;
    StateFrame(s.svc, s.ws, s.hist, s'.svc, s'.ws, s'.hist);
  }

  lemma SectionInstOk(s: Sys, w: Wid, c: Section)
    requires StateOk(s.svc, s.ws, s.hist) && CanSection(s, w, c)
    ensures var s' := DoSection(s, w, c); var i := s.ws[w].inst;
            InstOk(s'.hist, i, s'.svc[i]) && ProcOk(s'.svc, s'.hist, s'.ws[w]) && SeenOk(s'.svc, s'.hist, s'.ws[w])
  {
    var s', i, e := DoSection(s, w, c), s.ws[w].inst, Outcome(s, w, c);
    assert ProcOk(s.svc, s.hist, s.ws[w]) && InstOk(s.hist, i, s.svc[i]);
    NameMono(s.hist, s'.hist, s.svc[i].name);
    if e.events != [] { assert e.events[0] in s'.hist; }
  }

  lemma StateWrite(s: Sys, n: Name, st: State, c: Cause)
    requires StateOk(s.svc, s.ws, s.hist) && Refs(s.table, s.svc, s.ws)
    requires !st.Success? && (st.Running? ==> NameSpawned(s.hist, n))
    ensures StateOk(SetStateByName(s, n, st, c).svc, s.ws, s.hist)
  {
    if Known(s, n) {
      var i := s.table[n];
      var svc' := SetStateByName(s, n, st, c).svc;
      assert InstOk(s.hist, i, svc'[i]);
      hide StateOk, InstOk, ProcOk, SeenOk, Refs;
      StateFrame(s.svc, s.ws, s.hist, svc', s.ws, s.hist);
    }
  }

  /** A step that leaves a watcher where its check and its process are not concerned. */
  lemma StateMove(svc: map<Id, Inst>, ws: map<Wid, Watcher>, h: seq<Event>, w: Wid, x: Watcher)
    requires StateOk(svc, ws, h) && w in ws && x.inst == ws[w].inst && (x.pc == ws[w].pc || x.pc.Parked?)
        && x.tests <= ws[w].tests
    ensures StateOk(svc, ws[w := x], h)
  {
    assert ProcOk(svc, h, ws[w]) && SeenOk(svc, h, ws[w]);
    assert ProcOk(svc, h, x) && SeenOk(svc, h, x);
    hide StateOk, InstOk, ProcOk, SeenOk;
    StateFrame(svc, ws, h, svc, ws[w := x], h);
  }

  lemma StateName(s: Sys, w: Wid, b: ByName)
    requires StateOk(s.svc, s.ws, s.hist) && Refs(s.table, s.svc, s.ws) && CanName(s, w, b)
    ensures var s' := DoName(s, w, b); StateOk(s'.svc, s'.ws, s'.hist)
  {
    var n := InstOf(s, w).name;
    assert b.TestPass? ==> NameSpawned(s.hist, n) by { assert ProcOk(s.svc, s.hist, s.ws[w]); }
    hide StateOk, Refs, NameSpawned;
    StateWrite(s, n, NamedState(b), Named(b));
    StateMove(SetStateByName(s, n, NamedState(b), Named(b)).svc, s.ws, s.hist, w, DoName(s, w, b).ws[w]);
  }

  lemma StateRetarget(s: Sys, n: Name, t: Target)
    requires StateOk(s.svc, s.ws, s.hist)
    ensures var s' := Retarget(s, n, t); StateOk(s'.svc, s'.ws, s'.hist)
  {
    if Known(s, n) {
      var s', i := Retarget(s, n, t), s.table[n];
      assert InstOk(s.hist, i, s.svc[i]);
      InstMono(s.hist, s'.hist, i, s.svc[i]);
      hide StateOk, ProcOk, SeenOk;
      StateFrame(s.svc, s.ws, s.hist, s'.svc, s'.ws, s'.hist);
    }
  }

  lemma StateNew(svc: map<Id, Inst>, ws: map<Wid, Watcher>, h: seq<Event>, i: Id, x: Inst, w: Wid)
    requires StateOk(svc, ws, h) && w !in ws && (i in svc ==> svc[i] == x) && (i !in svc ==> x.v.state.Unknown?)
    ensures StateOk(svc[i := x], ws[w := Watcher(i, Entry, 0)], h)
  {
    assert i in svc ==> InstOk(h, i, svc[i]);
    hide StateOk;
    StateFrame(svc, ws, h, svc[i := x], ws[w := Watcher(i, Entry, 0)], h);
  }

  lemma StateRequest(s: Sys, r: Request)
    requires StateOk(s.svc, s.ws, s.hist) && CanRequest(s, r)
    ensures var s' := DoRequest(s, r); StateOk(s'.svc, s'.ws, s'.hist)
  {
    hide StateOk, Retarget;
    match r
    case MonitorInsert(n, c, i, w) => if n !in s.table { StateNew(s.svc, s.ws, s.hist, i, Inst(n, New(c)), w); }
    case StartTarget(n) => StateRetarget(s, n, Up);
    case StartWatch(n, w) =>
      if Known(s, n) {
        var i := s.table[n];
        assert s.svc[i := s.svc[i]] == s.svc;
        StateNew(s.svc, s.ws, s.hist, i, s.svc[i], w);
      }
    case Stop(n) => StateRetarget(s, n, Down);
    case Forget(n) => if Known(s, n) { StateEvent(s.svc, s.ws, s.hist, Remove(s.table[n])); }
    case _ =>
  }

  lemma StateEvent(svc: map<Id, Inst>, ws: map<Wid, Watcher>, h: seq<Event>, e: Event)
    requires StateOk(svc, ws, h)
    ensures StateOk(svc, ws, h + [e])
  {
    hide StateOk, InstOk, ProcOk, SeenOk;
    StateFrame(svc, ws, h, svc, ws, h + [e]);
  }

  lemma StateShut(s: Sys, k: Kid, d: Shutting)
    requires StateOk(s.svc, s.ws, s.hist) && CanShut(s, k, d)
    ensures var s' := DoShut(s, k, d); StateOk(s'.svc, s'.ws, s'.hist)
  {
    hide StateOk, Retarget;
    match d
    case SetFlag => StateEvent(s.svc, s.ws, s.hist, Shut);
    case KillStop => StateRetarget(s, s.kills[k].name, Down);
    case KillSignal =>
      var n := s.kills[k].name;
      if PidByName(s, n) != 0 { StateEvent(s.svc, s.ws, s.hist, Sigkill(s.table[n], PidByName(s, n))); }
    case _ =>
  }

  lemma StateStep(s: Sys, l: Label)
    requires StateOk(s.svc, s.ws, s.hist) && Refs(s.table, s.svc, s.ws) && Sup(s.svc, s.ws, s.hist) && Enabled(s, l)
    ensures var s' := Apply(s, l); StateOk(s'.svc, s'.ws, s'.hist)
  {
    hide StateOk, Sup, Refs, DoRequest, DoTurn, DoSection, DoName, DoShut;
    match l
    case Api(r) => StateRequest(s, r);
    case Turns(w, t) => StateTurn(s, w, t);
    case Sections(w, c) => StateSection(s, w, c);
    case Names(w, b) => StateName(s, w, b);
    case NotifyTest(_) =>
    case Shuts(k, d) => StateShut(s, k, d);
  }

  // ---------------------------------------------------------------- every spawn is legal

  lemma SpawnIsLegal(s: Sys, w: Wid, c: Section)
    requires Sup(s.svc, s.ws, s.hist) && StateOk(s.svc, s.ws, s.hist) && TargetOk(s.table, s.svc, s.hist)
    requires Legal(s.svc, s.hist) && CanSection(s, w, c)
    ensures Legal(s.svc, s.hist + Outcome(s, w, c).events)
  {
    var i, e := s.ws[w].inst, Outcome(s, w, c);
    if e.events == [] {
      assert s.hist + e.events == s.hist;
    } else {
      assert e.events == [e.events[0]];
      if e.events[0].Spawn? {
        SupAt(s.svc, s.ws, s.hist, w);
        assert SeenOk(s.svc, s.hist, s.ws[w]);
        assert Remove(i) in s.hist ==> !Listed(s.table, s.svc, i);
        assert LegalSpawn(s.svc, s.hist, i, s.svc[i].name, s.ws[w].pc.seen);
      }
      hide Sup, StateOk, TargetOk, LegalSpawn, Legal;
      LegalSnoc(s.svc, s.hist, e.events[0]);
    }
  }

  /** At most one event, and no spawn. */
  ghost predicate Tail(h: seq<Event>, h': seq<Event>) {
    h' == h || (|h'| == |h| + 1 && !h'[|h|].Spawn? && h' == h + [h'[|h|]])
  }

  lemma TailShut(s: Sys, k: Kid, d: Shutting)
    requires CanShut(s, k, d)
    ensures Tail(s.hist, DoShut(s, k, d).hist)
  {
  }

  lemma TailRequest(s: Sys, r: Request)
    requires CanRequest(s, r)
    ensures Tail(s.hist, DoRequest(s, r).hist)
  {
  }

  /** Only the spawn section records a spawn. */
  lemma OtherEvents(s: Sys, l: Label)
    requires Enabled(s, l) && !l.Sections?
    ensures Tail(s.hist, Apply(s, l).hist)
  {
    hide DoRequest, DoShut;
    match l
    case Api(r) => TailRequest(s, r);
    case Shuts(k, d) => TailShut(s, k, d);
    case _ =>
  }

  lemma LegalStep(s: Sys, l: Label)
    requires Sup(s.svc, s.ws, s.hist) && StateOk(s.svc, s.ws, s.hist) && TargetOk(s.table, s.svc, s.hist)
    requires Legal(s.svc, s.hist) && Enabled(s, l)
    ensures Legal(Apply(s, l).svc, Apply(s, l).hist)
  {
    var s' := Apply(s, l);
    FramedStep(s, l);
    if l.Sections? {
      SpawnIsLegal(s, l.w, l.section);
      LegalMono(s.svc, s'.svc, s'.hist);
    } else {
      OtherEvents(s, l);
      LegalMono(s.svc, s'.svc, s.hist);
      if s'.hist != s.hist {
        LegalSnoc(s'.svc, s.hist, s'.hist[|s.hist|]);
      }
    }
  }
}
