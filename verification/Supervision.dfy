/** One supervisor per instance, and what that means for pids and processes. */
module Supervision {
  import opened Basics
  import opened Service
  import opened Watch

  predicate Active(pc: Pc) {
    !pc.Entry? && !pc.Gone?
  }

  /** The pid a watcher at `pc` stands for. */
  function PidOf(pc: Pc): Pid {
    match pc
    case Waiting(p, _) => p
    case Reaped(p, _) => p
    case _ => 0
  }

  /** A watcher at `pc` has a main process that has not been reaped. */
  predicate LiveOf(pc: Pc) {
    pc.Waiting? && pc.result.None?
  }

  /** The last of the spawns and exits of `i` is a spawn. */
  predicate Live(h: seq<Event>, i: Id) {
    if h == [] then false else
    match h[|h| - 1]
    case Spawn(j, _, _, _) => i == j || Live(h[..|h| - 1], i)
    case Exit(j, _) => i != j && Live(h[..|h| - 1], i)
    case _ => Live(h[..|h| - 1], i)
  }

  predicate IsScheduled(svc: map<Id, Inst>, i: Id) {
    i in svc && svc[i].v.scheduled
  }

  ghost predicate Refs(table: map<Name, Id>, svc: map<Id, Inst>, ws: map<Wid, Watcher>) {
    && (forall n :: n in table ==> table[n] in svc && svc[table[n]].name == n)
    && (forall w :: w in ws ==> ws[w].inst in svc)
  }

  /** At most one watcher past the gate for each instance. */
  ghost predicate Unique(ws: map<Wid, Watcher>) {
    forall w, x :: w in ws && x in ws && Active(ws[w].pc) && Active(ws[x].pc) && ws[w].inst == ws[x].inst ==> w == x
  }

  /** A scheduled instance has a watcher past the gate. */
  ghost predicate Covered(svc: map<Id, Inst>, ws: map<Wid, Watcher>) {
    forall i :: IsScheduled(svc, i) ==> exists w :: w in ws && Active(ws[w].pc) && ws[w].inst == i
  }

  /** The instance of a watcher past the gate is scheduled and shows the watcher's pid and process. */
  ghost predicate Shown(svc: map<Id, Inst>, ws: map<Wid, Watcher>, h: seq<Event>) {
    forall w :: w in ws && Active(ws[w].pc) ==>
      && IsScheduled(svc, ws[w].inst)
      && svc[ws[w].inst].v.pid == PidOf(ws[w].pc)
      && Live(h, ws[w].inst) == LiveOf(ws[w].pc)
  }

  ghost predicate Resting(svc: map<Id, Inst>, h: seq<Event>) {
    && (forall i :: i in svc && !IsScheduled(svc, i) ==> svc[i].v.pid == 0)
    && (forall i :: !IsScheduled(svc, i) ==> !Live(h, i))
  }

  predicate PcOk(x: Watcher) {
    x.pc.Waiting? || x.pc.Reaped? ==> x.pc.pid != 0
  }

  ghost predicate Sup(svc: map<Id, Inst>, ws: map<Wid, Watcher>, h: seq<Event>) {
    && Unique(ws) && Covered(svc, ws) && Shown(svc, ws, h) && Resting(svc, h)
    && forall w :: w in ws ==> PcOk(ws[w])
  }

  // ---------------------------------------------------------------- preservation

  lemma SnocLive(h: seq<Event>, e: Event, i: Id)
    ensures Live(h + [e], i) ==
              if e.Spawn? && e.id == i then true else if e.Exit? && e.id == i then false else Live(h, i)
  {
    assert (h + [e])[..|h|] == h;
  }

  lemma CoveredMove(svc: map<Id, Inst>, ws: map<Wid, Watcher>, w: Wid, x: Watcher, v: Svc)
    requires Covered(svc, ws) && w in ws && ws[w].inst in svc && x.inst == ws[w].inst
    requires v.scheduled && !Active(x.pc) ==> !Active(ws[w].pc) && IsScheduled(svc, x.inst)
    ensures Covered(Put(svc, x.inst, v), ws[w := x])
  {
    var svc', ws' := Put(svc, x.inst, v), ws[w := x];
    forall i | IsScheduled(svc', i) ensures exists y :: y in ws' && Active(ws'[y].pc) && ws'[y].inst == i {
      if i == x.inst && Active(x.pc) {
        assert ws'[w] == x;
      } else {
        assert IsScheduled(svc, i);
        var y :| y in ws && Active(ws[y].pc) && ws[y].inst == i;
        assert y in ws' && ws'[y] == ws[y];
      }
    }
  }

  lemma UniqueMove(svc: map<Id, Inst>, ws: map<Wid, Watcher>, h: seq<Event>, w: Wid, x: Watcher)
    requires Unique(ws) && Shown(svc, ws, h) && w in ws && x.inst == ws[w].inst
    requires Active(x.pc) && !Active(ws[w].pc) ==> !IsScheduled(svc, x.inst)
    ensures Unique(ws[w := x])
    ensures Active(x.pc) || Active(ws[w].pc) ==>
              forall y :: y in ws && y != w && Active(ws[y].pc) ==> ws[y].inst != x.inst
  {
  }

  /** A watcher moves, and its instance with it. */
  lemma SupMove(svc: map<Id, Inst>, ws: map<Wid, Watcher>, h: seq<Event>, w: Wid, x: Watcher, v: Svc, h': seq<Event>)
    requires Sup(svc, ws, h) && w in ws && ws[w].inst in svc && x.inst == ws[w].inst && PcOk(x)
    requires forall j :: j != x.inst ==> Live(h', j) == Live(h, j)
    requires Active(x.pc) ==> v.scheduled && v.pid == PidOf(x.pc) && Live(h', x.inst) == LiveOf(x.pc)
    requires Active(ws[w].pc) && !Active(x.pc) ==> !v.scheduled && v.pid == 0 && !Live(h', x.inst)
    requires !Active(ws[w].pc) && Active(x.pc) ==> !IsScheduled(svc, x.inst)
    requires !Active(ws[w].pc) && !Active(x.pc) ==>
               v.scheduled == svc[x.inst].v.scheduled && v.pid == svc[x.inst].v.pid
                 && Live(h', x.inst) == Live(h, x.inst)
    ensures Sup(Put(svc, x.inst, v), ws[w := x], h')
  {
    hide Covered, Live;
    CoveredMove(svc, ws, w, x, v);
    UniqueMove(svc, ws, h, w, x);
    hide Unique;
    assert forall i :: i != x.inst ==> IsScheduled(Put(svc, x.inst, v), i) == IsScheduled(svc, i);
  }

  /** State and target writes do not matter here. */
  lemma SupRetag(svc: map<Id, Inst>, ws: map<Wid, Watcher>, h: seq<Event>, i: Id, v: Svc, h': seq<Event>)
    requires Sup(svc, ws, h) && i in svc && v.scheduled == svc[i].v.scheduled && v.pid == svc[i].v.pid
    requires forall j :: Live(h', j) == Live(h, j)
    ensures Sup(Put(svc, i, v), ws, h')
  {
    assert forall j :: IsScheduled(Put(svc, i, v), j) == IsScheduled(svc, j);
  }

  lemma SupEntry(svc: map<Id, Inst>, ws: map<Wid, Watcher>, h: seq<Event>, w: Wid, i: Id)
    requires Sup(svc, ws, h) && w !in ws
    ensures Sup(svc, ws[w := Watcher(i, Entry, 0)], h)
  {
    var ws' := ws[w := Watcher(i, Entry, 0)];
    forall j | IsScheduled(svc, j) ensures exists y :: y in ws' && Active(ws'[y].pc) && ws'[y].inst == j {
      var y :| y in ws && Active(ws[y].pc) && ws[y].inst == j;
      assert ws'[y] == ws[y];
    }
  }

  lemma SupNew(svc: map<Id, Inst>, ws: map<Wid, Watcher>, h: seq<Event>, i: Id, n: Name, c: Config)
    requires Sup(svc, ws, h) && i !in svc
    ensures Sup(svc[i := Inst(n, New(c))], ws, h)
  {
    var svc' := svc[i := Inst(n, New(c))];
    assert forall j :: IsScheduled(svc', j) == IsScheduled(svc, j);
  }

  /** `set_service_state` followed by a move of the same watcher. */
  lemma SupStateWrite(s: Sys, n: Name, st: State, c: Cause)
    requires Sup(s.svc, s.ws, s.hist)
    ensures Sup(SetStateByName(s, n, st, c).svc, s.ws, s.hist)
  {
    if Known(s, n) { SupRetag(s.svc, s.ws, s.hist, s.table[n], s.svc[s.table[n]].v.(state := st), s.hist); }
  }

  lemma PutSame(svc: map<Id, Inst>, i: Id)
    requires i in svc
    ensures Put(svc, i, svc[i].v) == svc
  {
  }

  /** Only the program counter moves. */
  lemma SupPc(svc: map<Id, Inst>, ws: map<Wid, Watcher>, h: seq<Event>, w: Wid, x: Watcher)
    requires Sup(svc, ws, h) && w in ws && ws[w].inst in svc && x.inst == ws[w].inst
    requires Active(x.pc) == Active(ws[w].pc)
    requires Active(x.pc) ==> PidOf(x.pc) == PidOf(ws[w].pc) && LiveOf(x.pc) == LiveOf(ws[w].pc)
    requires PcOk(x)
    ensures Sup(svc, ws[w := x], h)
  {
    PutSame(svc, x.inst);
    SupMove(svc, ws, h, w, x, svc[x.inst].v, h);
  }

  lemma SupEvent(svc: map<Id, Inst>, ws: map<Wid, Watcher>, h: seq<Event>, e: Event)
    requires Sup(svc, ws, h) && !e.Spawn? && !e.Exit?
    ensures Sup(svc, ws, h + [e])
  {
    forall i ensures Live(h + [e], i) == Live(h, i) { SnocLive(h, e, i); }
  }

  lemma SupRetarget(s: Sys, n: Name, t: Target)
    requires Sup(s.svc, s.ws, s.hist)
    ensures var s' := Retarget(s, n, t); Sup(s'.svc, s'.ws, s'.hist)
  {
    if Known(s, n) {
      var i := s.table[n];
      SupRetag(s.svc, s.ws, s.hist, i, s.svc[i].v.(target := t), s.hist);
      SupEvent(Put(s.svc, i, s.svc[i].v.(target := t)), s.ws, s.hist,
        if t.Down? then Lower(i, s.svc[i].v.pid) else Raise(i));
    }
  }

  lemma SupAt(svc: map<Id, Inst>, ws: map<Wid, Watcher>, h: seq<Event>, w: Wid)
    requires Sup(svc, ws, h) && w in ws
    ensures PcOk(ws[w])
    ensures Active(ws[w].pc) ==> IsScheduled(svc, ws[w].inst) && svc[ws[w].inst].v.pid == PidOf(ws[w].pc)
                                 && Live(h, ws[w].inst) == LiveOf(ws[w].pc)
    ensures !IsScheduled(svc, ws[w].inst) ==> !Live(h, ws[w].inst) && (ws[w].inst in svc ==> svc[ws[w].inst].v.pid == 0)
  {
  }

  lemma SupRequest(s: Sys, r: Request)
    requires Sup(s.svc, s.ws, s.hist) && CanRequest(s, r)
    ensures var s' := DoRequest(s, r); Sup(s'.svc, s'.ws, s'.hist)
  {
    hide Sup, Retarget;
    match r
    case MonitorInsert(n, c, i, w) =>
      if n !in s.table {
        SupNew(s.svc, s.ws, s.hist, i, n, c);
        SupEntry(s.svc[i := Inst(n, New(c))], s.ws, s.hist, w, i);
      }
    case StartTarget(n) => SupRetarget(s, n, Up);
    case StartWatch(n, w) => if Known(s, n) { SupEntry(s.svc, s.ws, s.hist, w, s.table[n]); }
    case Stop(n) => SupRetarget(s, n, Down);
    case Forget(n) => if n in s.table { SupEvent(s.svc, s.ws, s.hist, Remove(s.table[n])); }
    case _ =>
  }

  lemma SupTurn(s: Sys, w: Wid, t: Turn)
    requires Sup(s.svc, s.ws, s.hist) && CanTurn(s, w, t)
    ensures var s' := DoTurn(s, w, t); Sup(s'.svc, s'.ws, s'.hist)
  {
    hide Sup;
    SupAt(s.svc, s.ws, s.hist, w);
    SupPc(s.svc, s.ws, s.hist, w, DoTurn(s, w, t).ws[w]);
  }

  lemma SupSection(s: Sys, w: Wid, c: Section)
    requires Sup(s.svc, s.ws, s.hist) && CanSection(s, w, c)
    ensures var s' := DoSection(s, w, c); Sup(s'.svc, s'.ws, s'.hist)
  {
    hide Sup;
    var i, e := s.ws[w].inst, Outcome(s, w, c);
    SupAt(s.svc, s.ws, s.hist, w);
    if e.events != [] {
      assert e.events == [e.events[0]];
      forall j
        ensures Live(s.hist + e.events, j) == if e.events[0].id == j then e.events[0].Spawn? else Live(s.hist, j)
      {
        SnocLive(s.hist, e.events[0], j);
      }
    } else {
      assert s.hist + e.events == s.hist;
    }
    SupMove(s.svc, s.ws, s.hist, w, DoSection(s, w, c).ws[w], e.v, s.hist + e.events);
  }

  lemma SupName(s: Sys, w: Wid, b: ByName)
    requires Sup(s.svc, s.ws, s.hist) && CanName(s, w, b)
    ensures var s' := DoName(s, w, b); Sup(s'.svc, s'.ws, s'.hist)
  {
    hide Sup, NamedState;
    SupAt(s.svc, s.ws, s.hist, w);
    SupStateWrite(s, InstOf(s, w).name, NamedState(b), Named(b));
    SupPc(SetStateByName(s, InstOf(s, w).name, NamedState(b), Named(b)).svc, s.ws, s.hist, w, DoName(s, w, b).ws[w]);
  }

  lemma SupShut(s: Sys, k: Kid, d: Shutting)
    requires Sup(s.svc, s.ws, s.hist) && CanShut(s, k, d)
    ensures var s' := DoShut(s, k, d); Sup(s'.svc, s'.ws, s'.hist)
  {
    hide Sup, Retarget;
    match d
    case SetFlag => SupEvent(s.svc, s.ws, s.hist, Shut);
    case KillStop => SupRetarget(s, s.kills[k].name, Down);
    case KillSignal =>
      var n := s.kills[k].name;
      if PidByName(s, n) != 0 { SupEvent(s.svc, s.ws, s.hist, Sigkill(s.table[n], PidByName(s, n))); }
    case _ =>
  }

  lemma SupStep(s: Sys, l: Label)
    requires Sup(s.svc, s.ws, s.hist) && Enabled(s, l)
    ensures var s' := Apply(s, l); Sup(s'.svc, s'.ws, s'.hist)
  {
    hide Sup, DoRequest, DoTurn, DoSection, DoName, DoShut;
    match l
    case Api(r) => SupRequest(s, r);
    case Turns(w, t) => SupTurn(s, w, t);
    case Sections(w, c) => SupSection(s, w, c);
    case Names(w, b) => SupName(s, w, b);
    case NotifyTest(_) =>
    case Shuts(k, d) => SupShut(s, k, d);
  }

  // ---------------------------------------------------------------- references

  /** Instances are never dropped, and keep their name and configuration. */
  ghost predicate Grows(svc: map<Id, Inst>, svc': map<Id, Inst>) {
    forall i :: i in svc ==> i in svc' && svc'[i].name == svc[i].name && svc'[i].v.config == svc[i].v.config
  }

  /** A watcher keeps its instance; a new one is at the gate of a known instance. A table entry is the
      old one, or the instance a `monitor` has just made. */
  ghost predicate Framed(s: Sys, s': Sys) {
    && Grows(s.svc, s'.svc)
    && (forall w :: w in s'.ws ==>
          if w in s.ws then s'.ws[w].inst == s.ws[w].inst
          else s'.ws[w].inst in s'.svc && s'.ws[w].pc.Entry? && s'.ws[w].tests == 0)
    && (forall n :: n in s'.table ==>
          || (n in s.table && s.table[n] == s'.table[n])
          || (s'.table[n] !in s.svc && s'.table[n] in s'.svc
            && s'.svc[s'.table[n]] == Inst(n, New(s'.svc[s'.table[n]].v.config))))
  }

  lemma FramedNew(s: Sys, n: Name, c: Config, i: Id, w: Wid, s': Sys)
    requires i !in s.svc && w !in s.ws && n !in s.table
    requires s'.table == s.table[n := i] && s'.svc == s.svc[i := Inst(n, New(c))]
        && s'.ws == s.ws[w := Watcher(i, Entry, 0)]
    ensures Framed(s, s')
  {
  }

  lemma FramedRetarget(s: Sys, n: Name, t: Target)
    ensures Framed(s, Retarget(s, n, t))
  {
  }

  lemma FramedRequest(s: Sys, r: Request)
    requires CanRequest(s, r)
    ensures Framed(s, DoRequest(s, r))
  {
    hide Retarget, Framed;
    var s' := DoRequest(s, r);
    match r
    case MonitorInsert(n, c, i, w) =>
      if n in s.table { FramedSame(s, s'); } else { FramedNew(s, n, c, i, w, s'); }
    case StartTarget(n) =>
      FramedRetarget(s, n, Up);
      FramedMore(s, Retarget(s, n, Up), s');
    case StartWatch(n, w) => FramedWatch(s, s', n, w);
    case Stop(n) => FramedRetarget(s, n, Down);
    case Forget(n) => FramedForget(s, n);
    case _ => FramedSame(s, s');
  }

  lemma FramedMore(s: Sys, m: Sys, s': Sys)
    requires Framed(s, m) && s'.svc == m.svc && s'.ws == m.ws && s'.table == m.table
    ensures Framed(s, s')
  {
  }

  lemma FramedWatch(s: Sys, s': Sys, n: Name, w: Wid)
    requires w !in s.ws && s'.table == s.table && s'.svc == s.svc
    requires s'.ws == if Known(s, n) then s.ws[w := Watcher(s.table[n], Entry, 0)] else s.ws
    ensures Framed(s, s')
  {
  }

  lemma FramedForget(s: Sys, n: Name)
    ensures Framed(s, DoRequest(s, Forget(n)))
  {
  }

  /** A step of watcher `w` that leaves the table alone. */
  lemma FramedMove(s: Sys, s': Sys, w: Wid, x: Watcher)
    requires w in s.ws && x.inst == s.ws[w].inst
    requires Grows(s.svc, s'.svc) && s'.table == s.table && s'.ws == s.ws[w := x]
    ensures Framed(s, s')
  {
  }

  lemma FramedTurn(s: Sys, w: Wid, t: Turn)
    requires CanTurn(s, w, t)
    ensures Framed(s, DoTurn(s, w, t))
  {
    FramedMove(s, DoTurn(s, w, t), w, DoTurn(s, w, t).ws[w]);
  }

  lemma SectionKeepsConfig(s: Sys, w: Wid, c: Section)
    requires CanSection(s, w, c)
    ensures Outcome(s, w, c).v.config == InstOf(s, w).v.config
  {
  }

  lemma FramedSection(s: Sys, w: Wid, c: Section)
    requires CanSection(s, w, c)
    ensures Framed(s, DoSection(s, w, c))
  {
    SectionKeepsConfig(s, w, c);
    hide Framed, Outcome;
    FramedMove(s, DoSection(s, w, c), w, DoSection(s, w, c).ws[w]);
  }

  lemma FramedName(s: Sys, w: Wid, b: ByName)
    requires CanName(s, w, b)
    ensures Framed(s, DoName(s, w, b))
  {
    hide Framed, NamedState;
    FramedMove(s, DoName(s, w, b), w, DoName(s, w, b).ws[w]);
  }

  lemma FramedShut(s: Sys, k: Kid, d: Shutting)
    requires CanShut(s, k, d)
    ensures Framed(s, DoShut(s, k, d))
  {
  }

  lemma FramedStep(s: Sys, l: Label)
    requires Enabled(s, l)
    ensures Framed(s, Apply(s, l))
  {
    hide DoRequest, DoTurn, DoSection, DoName, DoShut, CanRequest, CanTurn, CanSection, CanName, CanShut, Framed;
    match l
    case Api(r) => FramedRequest(s, r);
    case Shuts(k, d) => FramedShut(s, k, d);
    case NotifyTest(_) => FramedSame(s, Apply(s, l));
    case Turns(w, t) => FramedTurn(s, w, t);
    case Sections(w, c) => FramedSection(s, w, c);
    case Names(w, b) => FramedName(s, w, b);
  }

  lemma FramedSame(s: Sys, s': Sys)
    requires s'.svc == s.svc && s'.ws == s.ws && s'.table == s.table
    ensures Framed(s, s')
  {
  }

  lemma RefsStep(s: Sys, l: Label)
    requires Refs(s.table, s.svc, s.ws) && Enabled(s, l)
    ensures var s' := Apply(s, l); Refs(s'.table, s'.svc, s'.ws)
  {
    FramedStep(s, l);
    hide Apply, Enabled;
  }
}
