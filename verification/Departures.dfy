/** An instance leaves the table only by `forget`. */
module Departures {
  import opened Basics
  import opened Service
  import opened Watch
  import opened Supervision
  import opened Trace
  import opened WatchRuns
  import opened Kills

  ghost predicate Accounted(table: map<Name, Id>, svc: map<Id, Inst>, h: seq<Event>) {
    forall i :: i in svc ==> Listed(table, svc, i) || Remove(i) in h
  }

  lemma SameTable(table: map<Name, Id>, svc: map<Id, Inst>, h: seq<Event>, svc': map<Id, Inst>, h': seq<Event>)
    requires Accounted(table, svc, h) && Grows(svc, svc') && svc'.Keys == svc.Keys && h <= h'
    ensures Accounted(table, svc', h')
  {
    NameMono(h, h', "");
    forall i | i in svc' ensures Listed(table, svc', i) || Remove(i) in h' {
      assert Listed(table, svc, i) || Remove(i) in h;
    }
  }

  lemma InsertAccounted(s: Sys, n: Name, c: Config, i: Id, w: Wid)
    requires Accounted(s.table, s.svc, s.hist) && CanRequest(s, MonitorInsert(n, c, i, w))
    ensures var s' := DoRequest(s, MonitorInsert(n, c, i, w)); Accounted(s'.table, s'.svc, s'.hist)
  {
    var s' := DoRequest(s, MonitorInsert(n, c, i, w));
    forall j | j in s'.svc ensures Listed(s'.table, s'.svc, j) || Remove(j) in s'.hist {
      assert j in s.svc ==> Listed(s.table, s.svc, j) || Remove(j) in s.hist;
    }
  }

  lemma ForgetAccounted(s: Sys, n: Name)
    requires Accounted(s.table, s.svc, s.hist)
    ensures var s' := DoRequest(s, Forget(n)); Accounted(s'.table, s'.svc, s'.hist)
  {
    var s' := DoRequest(s, Forget(n));
    forall j | j in s'.svc ensures Listed(s'.table, s'.svc, j) || Remove(j) in s'.hist {
      assert Listed(s.table, s.svc, j) || Remove(j) in s.hist;
    }
  }

  lemma OtherRequest(s: Sys, r: Request)
    requires CanRequest(s, r) && !r.MonitorInsert? && !r.Forget?
    ensures DoRequest(s, r).table == s.table && DoRequest(s, r).svc.Keys == s.svc.Keys
  {
    hide Retarget;
    match r
    case StartTarget(n) => RetargetFrame(s, n, Up);
    case Stop(n) => RetargetFrame(s, n, Down);
    case _ =>
  }

  lemma OtherStep(s: Sys, l: Label)
    requires Enabled(s, l) && !(l.Api? && (l.r.MonitorInsert? || l.r.Forget?))
    ensures Apply(s, l).table == s.table && Apply(s, l).svc.Keys == s.svc.Keys
  {
    hide DoRequest, DoTurn, DoSection, DoName, DoShut, CanRequest, CanTurn, CanSection, CanName, CanShut;
    match l
    case Api(r) => OtherRequest(s, r);
    case Turns(w, t) => TurnTable(s, w, t);
    case Sections(w, c) => SectionTable(s, w, c);
    case Names(w, b) => NameTable(s, w, b);
    case NotifyTest(_) =>
    case Shuts(k, d) => ShutTable(s, k, d);
  }

  lemma TurnTable(s: Sys, w: Wid, t: Turn)
    requires CanTurn(s, w, t)
    ensures DoTurn(s, w, t).table == s.table && DoTurn(s, w, t).svc.Keys == s.svc.Keys
  {
    hide TurnTo;
  }

  lemma SectionTable(s: Sys, w: Wid, c: Section)
    requires CanSection(s, w, c)
    ensures DoSection(s, w, c).table == s.table && DoSection(s, w, c).svc.Keys == s.svc.Keys
  {
    hide Outcome;
  }

  lemma NameTable(s: Sys, w: Wid, b: ByName)
    requires CanName(s, w, b)
    ensures DoName(s, w, b).table == s.table && DoName(s, w, b).svc.Keys == s.svc.Keys
  {
    hide NamedState;
  }

  lemma ShutTable(s: Sys, k: Kid, d: Shutting)
    requires CanShut(s, k, d)
    ensures DoShut(s, k, d).table == s.table && DoShut(s, k, d).svc.Keys == s.svc.Keys
  {
    hide Retarget, KillTo;
    if d.KillStop? { RetargetFrame(s, s.kills[k].name, Down); }
  }

  lemma AccountedStep(s: Sys, l: Label)
    requires Accounted(s.table, s.svc, s.hist) && Enabled(s, l)
    ensures var s' := Apply(s, l); Accounted(s'.table, s'.svc, s'.hist)
  {
    if l.Api? && l.r.MonitorInsert? {
      InsertAccounted(s, l.r.n, l.r.config, l.r.i, l.r.w);
    } else if l.Api? && l.r.Forget? {
      ForgetAccounted(s, l.r.n);
    } else {
      OtherStep(s, l);
      FramedStep(s, l);
      HistGrows(s, l);
      hide Apply, Enabled, Accounted;
      SameTable(s.table, s.svc, s.hist, Apply(s, l).svc, Apply(s, l).hist);
    }
  }

  lemma HistGrows(s: Sys, l: Label)
    requires Enabled(s, l)
    ensures s.hist <= Apply(s, l).hist
  {
    InstAny(s, l, 0);
  }

  lemma {:induction false} RunAccounted(ls: seq<Label>)
    requires Exec(ls).Some?
    ensures Accounted(Exec(ls).value.table, Exec(ls).value.svc, Exec(ls).value.hist)
    decreases |ls|
  {
    if ls == [] {
    } else {
      RunAccounted(ls[..|ls| - 1]);
      AccountedStep(Exec(ls[..|ls| - 1]).value, ls[|ls| - 1]);
    }
  }

  /** In every run an instance is in the table under its name, or a `forget` took it out. */
  lemma ListedOrForgotten(ls: seq<Label>, i: Id)
    requires Exec(ls).Some? && i in Exec(ls).value.svc
    ensures var s := Exec(ls).value; Remove(i) in s.hist || (s.svc[i].name in s.table && s.table[s.svc[i].name] == i)
  {
    RunAccounted(ls);
  }
}
