/** The pids that `stop` and the kill tasks read, against the processes that were spawned. */
module Pids {
  import opened Basics
  import opened Service
  import opened Watch
  import opened Supervision
  import opened WatchRuns

  /** The pid of the last process spawned for `i`, 0 if there was none. */
  function LastPid(h: seq<Event>, i: Id): Pid {
    if h == [] then 0 else
    match h[|h| - 1]
    case Spawn(j, _, _, p) => if i == j then p else LastPid(h[..|h| - 1], i)
    case _ => LastPid(h[..|h| - 1], i)
  }

  /** `p` may be read for `i` after `h`: it is 0 or the pid of the last process of `i`, and not 0 while
      that process lives. */
  predicate ReadOk(h: seq<Event>, i: Id, p: Pid) {
    (p == 0 || p == LastPid(h, i)) && (Live(h, i) ==> p != 0)
  }

  ghost predicate Recorded(svc: map<Id, Inst>, h: seq<Event>) {
    forall i :: i in svc ==> ReadOk(h, i, svc[i].v.pid)
  }

  function ReadOf(e: Event): Option<Pid> {
    match e case Lower(_, p) => Some(p) case Sigkill(_, p) => Some(p) case _ => None
  }

  ghost predicate ReadsOk(h: seq<Event>) {
    && (forall k :: 0 <= k < |h| && ReadOf(h[k]).Some? ==> ReadOk(h[..k], h[k].id, ReadOf(h[k]).value))
    && (forall k :: 0 <= k < |h| && h[k].Sigkill? ==> h[k].pid != 0)
  }

  lemma SnocLast(h: seq<Event>, e: Event, i: Id)
    ensures LastPid(h + [e], i) == if e.Spawn? && e.id == i then e.pid else LastPid(h, i)
  {
    assert (h + [e])[..|h|] == h;
  }

  lemma SnocRead(h: seq<Event>, e: Event)
    requires ReadsOk(h) && (ReadOf(e).Some? ==> ReadOk(h, e.id, ReadOf(e).value)) && (e.Sigkill? ==> e.pid != 0)
    ensures ReadsOk(h + [e])
  {
    hide ReadOk;
    var h' := h + [e];
    forall k | 0 <= k < |h'| && ReadOf(h'[k]).Some? ensures ReadOk(h'[..k], h'[k].id, ReadOf(h'[k]).value) {
      if k < |h| { assert h'[..k] == h[..k]; } else { assert h'[..k] == h; }
    }
  }

  /** An event that is no spawn and no exit, and carries the pid on record if it carries one. */
  lemma OtherEvent(svc: map<Id, Inst>, h: seq<Event>, e: Event)
    requires Recorded(svc, h) && ReadsOk(h) && !e.Spawn? && !e.Exit?
    requires ReadOf(e).Some? ==> e.id in svc && svc[e.id].v.pid == ReadOf(e).value
    requires e.Sigkill? ==> e.pid != 0
    ensures Recorded(svc, h + [e]) && ReadsOk(h + [e])
  {
    SnocRead(h, e);
    forall i | i in svc ensures ReadOk(h + [e], i, svc[i].v.pid) {
      SnocLast(h, e, i);
      SnocLive(h, e, i);
    }
  }

  /** No pid is written. */
  lemma SamePids(svc: map<Id, Inst>, svc': map<Id, Inst>, h: seq<Event>)
    requires Recorded(svc, h)
    requires forall i :: i in svc' ==>
        (i in svc && svc'[i].v.pid == svc[i].v.pid) || (svc'[i].v.pid == 0 && !Live(h, i))
    ensures Recorded(svc', h)
  {
  }

  lemma RetargetPids(s: Sys, n: Name, t: Target)
    requires Recorded(s.svc, s.hist) && ReadsOk(s.hist)
    ensures var s' := Retarget(s, n, t); Recorded(s'.svc, s'.hist) && ReadsOk(s'.hist)
  {
    hide Recorded, ReadsOk;
    if Known(s, n) {
      var i := s.table[n];
      var v := s.svc[i].v.(target := t);
      SamePids(s.svc, Put(s.svc, i, v), s.hist);
      OtherEvent(Put(s.svc, i, v), s.hist, if t.Down? then Lower(i, s.svc[i].v.pid) else Raise(i));
    }
  }

  lemma NewPid(svc: map<Id, Inst>, ws: map<Wid, Watcher>, h: seq<Event>, i: Id, n: Name, c: Config)
    requires Recorded(svc, h) && Sup(svc, ws, h) && i !in svc
    ensures Recorded(svc[i := Inst(n, New(c))], h)
  {
    assert !IsScheduled(svc, i);
    hide Sup;
    SamePids(svc, svc[i := Inst(n, New(c))], h);
  }

  lemma RequestPids(s: Sys, r: Request)
    requires Recorded(s.svc, s.hist) && ReadsOk(s.hist) && Sup(s.svc, s.ws, s.hist) && CanRequest(s, r)
    ensures var s' := DoRequest(s, r); Recorded(s'.svc, s'.hist) && ReadsOk(s'.hist)
  {
    hide Recorded, ReadsOk, Sup, Retarget;
    match r
    case MonitorInsert(n, c, i, w) => NewPid(s.svc, s.ws, s.hist, i, n, c);
    case StartTarget(n) => RetargetPids(s, n, Up);
    case Stop(n) => RetargetPids(s, n, Down);
    case Forget(n) => if Known(s, n) { OtherEvent(s.svc, s.hist, Remove(s.table[n])); }
    case _ =>
  }

  /** A section sets the pid with the spawn it records, and clears it when the process is gone. */
  lemma SectionPid(s: Sys, w: Wid, c: Section)
    requires CanSection(s, w, c) && Sup(s.svc, s.ws, s.hist) && ReadOk(s.hist, s.ws[w].inst, InstOf(s, w).v.pid)
    ensures var e := Outcome(s, w, c);
            && |e.events| <= 1 && (e.events != [] ==> e.events[0].id == s.ws[w].inst && ReadOf(e.events[0]).None?)
            && ReadOk(s.hist + e.events, s.ws[w].inst, e.v.pid)
  {
    SupAt(s.svc, s.ws, s.hist, w);
    hide Sup;
    var i, e := s.ws[w].inst, Outcome(s, w, c);
    if e.events == [] {
      assert s.hist + e.events == s.hist;
    } else {
      assert e.events == [e.events[0]];
      SnocLast(s.hist, e.events[0], i);
      SnocLive(s.hist, e.events[0], i);
    }
  }

  lemma SectionPids(s: Sys, w: Wid, c: Section)
    requires Recorded(s.svc, s.hist) && ReadsOk(s.hist) && Sup(s.svc, s.ws, s.hist) && CanSection(s, w, c)
    ensures var s' := DoSection(s, w, c); Recorded(s'.svc, s'.hist) && ReadsOk(s'.hist)
  {
    var i, e, s' := s.ws[w].inst, Outcome(s, w, c), DoSection(s, w, c);
    SectionPid(s, w, c);
    hide Sup, Outcome, ReadsOk;
    if e.events == [] {
      assert s.hist + e.events == s.hist;
    } else {
      assert e.events == [e.events[0]];
      SnocRead(s.hist, e.events[0]);
    }
    forall j | j in s'.svc ensures ReadOk(s'.hist, j, s'.svc[j].v.pid) {
      if j != i && e.events != [] {
        SnocLast(s.hist, e.events[0], j);
        SnocLive(s.hist, e.events[0], j);
      }
    }
  }

  lemma NamePids(s: Sys, w: Wid, b: ByName)
    requires Recorded(s.svc, s.hist) && CanName(s, w, b)
    ensures var s' := DoName(s, w, b); Recorded(s'.svc, s'.hist) && s'.hist == s.hist
  {
    hide Recorded, NamedState;
    SamePids(s.svc, DoName(s, w, b).svc, s.hist);
  }

  lemma ShutPids(s: Sys, k: Kid, d: Shutting)
    requires Recorded(s.svc, s.hist) && ReadsOk(s.hist) && CanShut(s, k, d)
    ensures var s' := DoShut(s, k, d); Recorded(s'.svc, s'.hist) && ReadsOk(s'.hist)
  {
    hide Recorded, ReadsOk, Retarget;
    match d
    case SetFlag => OtherEvent(s.svc, s.hist, Shut);
    case KillStop => RetargetPids(s, s.kills[k].name, Down);
    case KillSignal =>
      var n := s.kills[k].name;
      if PidByName(s, n) != 0 { OtherEvent(s.svc, s.hist, Sigkill(s.table[n], PidByName(s, n))); }
    case _ =>
  }

  lemma PidsStep(s: Sys, l: Label)
    requires Recorded(s.svc, s.hist) && ReadsOk(s.hist) && Sup(s.svc, s.ws, s.hist) && Enabled(s, l)
    ensures var s' := Apply(s, l); Recorded(s'.svc, s'.hist) && ReadsOk(s'.hist)
  {
    hide Recorded, ReadsOk, Sup, DoRequest, DoSection, DoName, DoShut;
    match l
    case Api(r) => RequestPids(s, r);
    case Turns(w, t) =>
    case Sections(w, c) => SectionPids(s, w, c);
    case Names(w, b) => NamePids(s, w, b);
    case NotifyTest(_) =>
    case Shuts(k, d) => ShutPids(s, k, d);
  }

  lemma {:induction false} RunPids(ls: seq<Label>)
    requires Exec(ls).Some?
    ensures Recorded(Exec(ls).value.svc, Exec(ls).value.hist) && ReadsOk(Exec(ls).value.hist)
    decreases |ls|
  {
    if ls == [] {
    } else {
      var init := ls[..|ls| - 1];
      RunPids(init);
      RunInv(init);
      PidsStep(Exec(init).value, ls[|ls| - 1]);
    }
  }

  /** Every `stop` reads the pid of the instance's last process or 0, and not 0 while that process has not
      been reaped, so a live process is never missed; and SIGKILL goes to the last process alone. */
  lemma StopReadsLivePid(ls: seq<Label>, a: nat)
    requires Exec(ls).Some? && a < |Exec(ls).value.hist|
    ensures var h := Exec(ls).value.hist;
            && (h[a].Lower? && Live(h[..a], h[a].id) ==> h[a].read != 0)
            && (h[a].Lower? && h[a].read != 0 ==> h[a].read == LastPid(h[..a], h[a].id))
            && (h[a].Sigkill? ==> h[a].pid == LastPid(h[..a], h[a].id))
  {
    RunPids(ls);
    hide Exec;
    var h := Exec(ls).value.hist;
    assert ReadOf(h[a]).Some? ==> ReadOk(h[..a], h[a].id, ReadOf(h[a]).value);
  }
}
