/** The state an instance shows, against everything that was ever forced on it and the exits delivered. */
module Ledger {
  import opened Basics
  import opened Service
  import opened Watch
  import opened Supervision
  import opened Trace
  import opened WatchRuns
  import opened StateRelation

  /** The last write to `i`. */
  function Last(writes: seq<Write>, i: Id): Option<Write> {
    if writes == [] then None else
    var x := writes[|writes| - 1];
    if x.id == i then Some(x) else Last(writes[..|writes| - 1], i)
  }

  function Shown(writes: seq<Write>, i: Id): State {
    match Last(writes, i) case None => Unknown case Some(x) => x.to
  }

  /** What the last attempt to run `i` has come to: a spawn, a failed spawn, or the end of the process. */
  function Attempt(writes: seq<Write>, i: Id): Option<Cause> {
    if writes == [] then None else
    var x := writes[|writes| - 1];
    if x.id == i && (x.cause.Started? || x.cause.Refused? || x.cause.Ended?) then Some(x.cause)
    else Attempt(writes[..|writes| - 1], i)
  }

  function LastExit(h: seq<Event>, i: Id): Option<WaitStatus> {
    if h == [] then None else
    match h[|h| - 1]
    case Exit(j, st) => if i == j then Some(st) else LastExit(h[..|h| - 1], i)
    case _ => LastExit(h[..|h| - 1], i)
  }

  /** The state each cause forces. */
  predicate Fits(x: Write, c: Config) {
    match x.cause
    case Started => x.to == State.Spawned
    case Ran => c.oneShot && x.from == State.Spawned && x.to == Running
    case Refused => x.to == Failure
    case Ended(st) => if st == ExitCode(0) then x.to == Success else x.to == Error(st)
    case Named(b) =>
      match b
      case SetBlocked => x.to == Blocked
      case TestPass => x.to == Running
      case TestError => x.to == TestFailure
  }

  /** Every write is on an instance, starts from the state shown before it, and forces what its cause says;
      and what an instance shows is what was last forced on it. */
  ghost predicate Booked(svc: map<Id, Inst>, writes: seq<Write>) {
    && (forall i :: i in svc ==> svc[i].v.state == Shown(writes, i))
    && (forall k :: 0 <= k < |writes| ==>
          && writes[k].id in svc && Fits(writes[k], svc[writes[k].id].v.config)
          && writes[k].from == Shown(writes[..k], writes[k].id))
  }

  /** Spawns, failed spawns and ends alternate as they should. */
  ghost predicate Sequenced(writes: seq<Write>) {
    forall k :: 0 <= k < |writes| ==> InTurn(writes[..k], writes[k])
  }

  predicate InTurn(before: seq<Write>, x: Write) {
    && (x.cause.Started? || x.cause.Refused? ==> Attempt(before, x.id) != Some(Started))
    && (x.cause.Ended? ==> Attempt(before, x.id) == Some(Started))
    && (x.cause.Ran? ==> before != [] && before[|before| - 1].id == x.id && before[|before| - 1].cause.Started?)
  }

  /** The last attempt is a spawn exactly while a watcher has its process on record. */
  ghost predicate Tried(svc: map<Id, Inst>, ws: map<Wid, Watcher>, writes: seq<Write>) {
    && (forall w :: w in ws && Active(ws[w].pc) ==>
          (HasProcess(ws[w].pc) <==> Attempt(writes, ws[w].inst) == Some(Started)))
    && (forall i :: !IsScheduled(svc, i) ==> Attempt(writes, i) != Some(Started))
  }

  /** Delivered and recorded statuses are those of the last exit. */
  ghost predicate Delivers(ws: map<Wid, Watcher>, writes: seq<Write>, h: seq<Event>) {
    && (forall w :: w in ws && Delivered(ws[w].pc).Some? ==> LastExit(h, ws[w].inst) == Delivered(ws[w].pc))
    && (forall i :: EndedAs(writes, i).Some? ==> LastExit(h, i) == EndedAs(writes, i))
  }

  function EndedAs(writes: seq<Write>, i: Id): Option<WaitStatus> {
    match Attempt(writes, i) case Some(Ended(st)) => Some(st) case _ => None
  }

  /** No one-shot is ever seen in Spawned. */
  ghost predicate OneShots(svc: map<Id, Inst>) {
    forall i :: i in svc && svc[i].v.config.oneShot ==> svc[i].v.state != State.Spawned
  }

  ghost predicate Kept(s: Sys) {
    && Booked(s.svc, s.writes) && Sequenced(s.writes) && Tried(s.svc, s.ws, s.writes)
    && Delivers(s.ws, s.writes, s.hist) && OneShots(s.svc)
  }

  // ---------------------------------------------------------------- one write more

  lemma SnocLast(writes: seq<Write>, x: Write, i: Id)
    ensures Last(writes + [x], i) == if x.id == i then Some(x) else Last(writes, i)
    ensures Attempt(writes + [x], i) ==
              if x.id == i && (x.cause.Started? || x.cause.Refused? || x.cause.Ended?) then Some(x.cause)
              else Attempt(writes, i)
  {
    assert (writes + [x])[..|writes|] == writes;
  }

  lemma SnocExit(h: seq<Event>, e: Event, i: Id)
    ensures LastExit(h + [e], i) == if e.Exit? && e.id == i then Some(e.status) else LastExit(h, i)
  {
    assert (h + [e])[..|h|] == h;
  }

  lemma {:induction false} NeverWritten(writes: seq<Write>, i: Id)
    requires forall k :: 0 <= k < |writes| ==> writes[k].id != i
    ensures Last(writes, i).None? && Attempt(writes, i).None?
    decreases |writes|
  {
    if writes == [] {
    } else {
      NeverWritten(writes[..|writes| - 1], i);
    }
  }

  lemma BookedWrite(svc: map<Id, Inst>, writes: seq<Write>, v: Svc, x: Write)
    requires Booked(svc, writes) && x.id in svc && v.config == svc[x.id].v.config
    requires x.from == svc[x.id].v.state && x.to == v.state && Fits(x, v.config)
    ensures Booked(Put(svc, x.id, v), writes + [x])
  {
    hide Fits;
    var svc', writes' := Put(svc, x.id, v), writes + [x];
    forall i | i in svc' ensures svc'[i].v.state == Shown(writes', i) { SnocLast(writes, x, i); }
    forall k | 0 <= k < |writes'|
      ensures writes'[k].id in svc' && Fits(writes'[k], svc'[writes'[k].id].v.config)
      ensures writes'[k].from == Shown(writes'[..k], writes'[k].id)
    {
      if k < |writes| { assert writes'[..k] == writes[..k]; } else { assert writes'[..k] == writes; }
    }
  }

  /** Nothing is written: instances keep their state and configuration, new ones show Unknown. */
  lemma BookedSame(svc: map<Id, Inst>, writes: seq<Write>, svc': map<Id, Inst>)
    requires Booked(svc, writes) && svc.Keys <= svc'.Keys
    requires forall i :: i in svc' && i in svc ==>
        svc'[i].v.state == svc[i].v.state && svc'[i].v.config == svc[i].v.config
    requires forall i :: i in svc' && i !in svc ==> svc'[i].v.state == Unknown
    ensures Booked(svc', writes)
  {
    hide Fits;
    forall i | i in svc' && i !in svc ensures Shown(writes, i) == Unknown { NeverWritten(writes, i); }
  }

  lemma SequencedSnoc(writes: seq<Write>, x: Write)
    requires Sequenced(writes) && InTurn(writes, x)
    ensures Sequenced(writes + [x])
  {
    hide InTurn;
    var writes' := writes + [x];
    forall k | 0 <= k < |writes'| ensures InTurn(writes'[..k], writes'[k]) {
      if k < |writes| { assert writes'[..k] == writes[..k]; } else { assert writes'[..k] == writes; }
    }
  }

  // ---------------------------------------------------------------- a watcher moves

  lemma TriedMove(svc: map<Id, Inst>, ws: map<Wid, Watcher>, h: seq<Event>, writes: seq<Write>,
                  w: Wid, x: Watcher, v: Svc, writes': seq<Write>)
    requires Tried(svc, ws, writes) && Sup(svc, ws, h) && w in ws && ws[w].inst in svc && x.inst == ws[w].inst
    requires forall j :: j != x.inst ==> Attempt(writes', j) == Attempt(writes, j)
    requires Active(x.pc) ==> v.scheduled && (HasProcess(x.pc) <==> Attempt(writes', x.inst) == Some(Started))
    requires !Active(x.pc) && Active(ws[w].pc) ==> Attempt(writes', x.inst) != Some(Started)
    requires !Active(x.pc) && !Active(ws[w].pc) ==>
        v.scheduled == svc[x.inst].v.scheduled && Attempt(writes', x.inst) == Attempt(writes, x.inst)
    requires Active(x.pc) && !Active(ws[w].pc) ==> !IsScheduled(svc, x.inst)
    ensures Tried(Put(svc, x.inst, v), ws[w := x], writes')
  {
    UniqueMove(svc, ws, h, w, x);
    hide Sup, Attempt, HasProcess;
    assert forall i :: i != x.inst ==> IsScheduled(Put(svc, x.inst, v), i) == IsScheduled(svc, i);
  }

  lemma TriedAt(svc: map<Id, Inst>, ws: map<Wid, Watcher>, writes: seq<Write>, w: Wid)
    requires Tried(svc, ws, writes) && w in ws
    ensures Active(ws[w].pc) ==> (HasProcess(ws[w].pc) <==> Attempt(writes, ws[w].inst) == Some(Started))
    ensures !IsScheduled(svc, ws[w].inst) ==> Attempt(writes, ws[w].inst) != Some(Started)
  {
  }

  /** Schedules and attempts stay as they are. */
  lemma TriedSame(svc: map<Id, Inst>, ws: map<Wid, Watcher>, writes: seq<Write>,
                  svc': map<Id, Inst>, ws': map<Wid, Watcher>, writes': seq<Write>)
    requires Tried(svc, ws, writes) && forall i :: Attempt(writes', i) == Attempt(writes, i)
    requires forall i :: IsScheduled(svc', i) == IsScheduled(svc, i)
    requires forall w :: w in ws' && Active(ws'[w].pc) ==>
        w in ws && Active(ws[w].pc) && ws'[w].inst == ws[w].inst && HasProcess(ws'[w].pc) == HasProcess(ws[w].pc)
    ensures Tried(svc', ws', writes')
  {
    hide Attempt, HasProcess, IsScheduled;
  }

  /** The writes of a section, and the state it leaves, are booked. */
  lemma SectionBooked(s: Sys, w: Wid, c: Section)
    requires Booked(s.svc, s.writes) && CanSection(s, w, c)
    ensures var s' := DoSection(s, w, c); Booked(s'.svc, s'.writes)
  {
    var i, e, v := s.ws[w].inst, Outcome(s, w, c), InstOf(s, w).v;
    SectionKeepsConfig(s, w, c);
    SectionWritesAre(s, w, c);
    var x := WritesOf(i, e.writes);
    ShownHere(s.svc, s.writes, i);
    hide Booked, Outcome, Fits;
    if |e.writes| == 0 {
      assert s.writes + x == s.writes;
      BookedSame(s.svc, s.writes, Put(s.svc, i, e.v));
    } else if |e.writes| == 1 {
      assert x == [x[0]];
      BookedWrite(s.svc, s.writes, e.v, x[0]);
    } else {
      BookedTwo(s.svc, s.writes, i, e.v, x[0], x[1]);
      assert s.writes + x == s.writes + [x[0]] + [x[1]];
    }
  }

  lemma ShownHere(svc: map<Id, Inst>, writes: seq<Write>, i: Id)
    requires Booked(svc, writes) && i in svc
    ensures svc[i].v.state == Shown(writes, i)
  {
  }

  lemma BookedTwo(svc: map<Id, Inst>, writes: seq<Write>, i: Id, v: Svc, x: Write, y: Write)
    requires Booked(svc, writes) && i in svc && v.config == svc[i].v.config && x.id == i && y.id == i
    requires x.from == svc[i].v.state && x.to == y.from && y.to == v.state && Fits(x, v.config) && Fits(y, v.config)
    ensures Booked(Put(svc, i, v), writes + [x] + [y])
  {
    hide Booked, Fits;
    var u := svc[i].v.(state := x.to);
    BookedWrite(svc, writes, u, x);
    BookedWrite(Put(svc, i, u), writes + [x], v, y);
    assert Put(Put(svc, i, u), i, v) == Put(svc, i, v);
  }

  /** What a section writes: nothing, one state, or the two of a spawned one-shot. */
  lemma SectionWritesAre(s: Sys, w: Wid, c: Section)
    requires CanSection(s, w, c)
    ensures var i, e, v := s.ws[w].inst, Outcome(s, w, c), InstOf(s, w).v;
            var x := WritesOf(i, e.writes);
            && |x| == |e.writes| <= 2 && (forall k :: 0 <= k < |x| ==> x[k].id == i && Fits(x[k], v.config))
            && (|x| == 0 ==> e.v.state == v.state)
            && (|x| == 1 ==> x[0].from == v.state && x[0].to == e.v.state && !x[0].cause.Ran?)
            && (|x| == 2 ==> x[0].from == v.state && x[0].to == x[1].from == State.Spawned && x[1].to == e.v.state
                             && x[0].cause.Started? && x[1].cause.Ran?)
  {
  }

  /** How a section moves the attempt of its instance. */
  lemma SectionAttempt(s: Sys, w: Wid, c: Section, j: Id)
    requires CanSection(s, w, c)
    ensures var x := WritesOf(s.ws[w].inst, Outcome(s, w, c).writes);
            Attempt(s.writes + x, j) ==
              if j == s.ws[w].inst && x != [] then Some(x[0].cause) else Attempt(s.writes, j)
  {
    SectionWritesAre(s, w, c);
    var x := WritesOf(s.ws[w].inst, Outcome(s, w, c).writes);
    hide Outcome, Fits;
    if |x| == 0 {
      assert s.writes + x == s.writes;
    } else {
      SnocLast(s.writes, x[0], j);
      if |x| == 1 {
        assert x == [x[0]];
      } else {
        SnocLast(s.writes + [x[0]], x[1], j);
        assert s.writes + x == s.writes + [x[0]] + [x[1]];
      }
    }
  }

  lemma SectionSequenced(s: Sys, w: Wid, c: Section)
    requires Sequenced(s.writes) && Tried(s.svc, s.ws, s.writes) && Sup(s.svc, s.ws, s.hist) && CanSection(s, w, c)
    ensures Sequenced(DoSection(s, w, c).writes)
  {
    SectionWritesAre(s, w, c);
    TriedAt(s.svc, s.ws, s.writes, w);
    var x := WritesOf(s.ws[w].inst, Outcome(s, w, c).writes);
    SectionInTurn(s, w, c);
    hide Outcome, Fits, Tried, Sup, Sequenced, InTurn;
    if |x| == 0 {
      assert s.writes + x == s.writes;
    } else if |x| == 1 {
      assert x == [x[0]];
      SequencedSnoc(s.writes, x[0]);
    } else {
      SequencedTwo(s.writes, x[0], x[1]);
      assert s.writes + x == s.writes + [x[0]] + [x[1]];
    }
  }

  lemma SequencedTwo(writes: seq<Write>, x: Write, y: Write)
    requires Sequenced(writes) && InTurn(writes, x) && x.cause.Started? && y.cause.Ran? && y.id == x.id
    ensures Sequenced(writes + [x] + [y])
  {
    hide Sequenced;
    SequencedSnoc(writes, x);
    SequencedSnoc(writes + [x], y);
  }

  lemma SectionInTurn(s: Sys, w: Wid, c: Section)
    requires CanSection(s, w, c)
    requires Active(s.ws[w].pc) ==> (HasProcess(s.ws[w].pc) <==> Attempt(s.writes, s.ws[w].inst) == Some(Started))
    ensures var x := WritesOf(s.ws[w].inst, Outcome(s, w, c).writes);
            x != [] ==> InTurn(s.writes, x[0])
  {
    hide Attempt;
  }

  lemma SectionTried(s: Sys, w: Wid, c: Section)
    requires Tried(s.svc, s.ws, s.writes) && Sup(s.svc, s.ws, s.hist) && CanSection(s, w, c)
    ensures var s' := DoSection(s, w, c); Tried(s'.svc, s'.ws, s'.writes)
  {
    var s', e := DoSection(s, w, c), Outcome(s, w, c);
    TriedAt(s.svc, s.ws, s.writes, w);
    SupAt(s.svc, s.ws, s.hist, w);
    SectionAttempt(s, w, c, s.ws[w].inst);
    forall j | j != s.ws[w].inst ensures Attempt(s'.writes, j) == Attempt(s.writes, j) { SectionAttempt(s, w, c, j); }
    hide Tried, Sup, Attempt;
    TriedMove(s.svc, s.ws, s.hist, s.writes, w, s'.ws[w], e.v, s'.writes);
  }

  /** The exits after a section: its own instance's, when its process dies. */
  lemma SectionExit(s: Sys, w: Wid, c: Section, j: Id)
    requires CanSection(s, w, c)
    ensures LastExit(DoSection(s, w, c).hist, j) ==
              if c.ChildExit? && j == s.ws[w].inst then Some(c.status) else LastExit(s.hist, j)
  {
    var e := Outcome(s, w, c).events;
    if e == [] {
      assert s.hist + e == s.hist;
    } else {
      assert e == [e[0]];
      SnocExit(s.hist, e[0], j);
    }
  }

  /** The moving watcher, and what its instance has recorded, after a section. */
  lemma SectionStatus(s: Sys, w: Wid, c: Section)
    requires CanSection(s, w, c) && (c.ChildExit? ==> EndedAs(s.writes, s.ws[w].inst).None?)
    requires Delivered(s.ws[w].pc).Some? ==> LastExit(s.hist, s.ws[w].inst) == Delivered(s.ws[w].pc)
    requires EndedAs(s.writes, s.ws[w].inst).Some? ==>
        LastExit(s.hist, s.ws[w].inst) == EndedAs(s.writes, s.ws[w].inst)
    ensures var s', i := DoSection(s, w, c), s.ws[w].inst;
            && (Delivered(s'.ws[w].pc).Some? ==> LastExit(s'.hist, i) == Delivered(s'.ws[w].pc))
            && (EndedAs(s'.writes, i).Some? ==> LastExit(s'.hist, i) == EndedAs(s'.writes, i))
  {
    SectionExit(s, w, c, s.ws[w].inst);
    SectionAttempt(s, w, c, s.ws[w].inst);
    hide Attempt, LastExit;
  }

  lemma AloneAt(svc: map<Id, Inst>, ws: map<Wid, Watcher>, h: seq<Event>, w: Wid, y: Wid)
    requires Sup(svc, ws, h) && w in ws && y in ws && y != w && Active(ws[w].pc) && Active(ws[y].pc)
    ensures ws[y].inst != ws[w].inst
  {
  }

  lemma SectionDelivers(s: Sys, w: Wid, c: Section)
    requires Delivers(s.ws, s.writes, s.hist) && Tried(s.svc, s.ws, s.writes) && Sup(s.svc, s.ws, s.hist)
    requires CanSection(s, w, c)
    ensures var s' := DoSection(s, w, c); Delivers(s'.ws, s'.writes, s'.hist)
  {
    var s', i := DoSection(s, w, c), s.ws[w].inst;
    TriedAt(s.svc, s.ws, s.writes, w);
    SectionStatus(s, w, c);
    hide Sup, Tried, Outcome, Attempt, LastExit;
    forall y | y in s'.ws && Delivered(s'.ws[y].pc).Some?
      ensures LastExit(s'.hist, s'.ws[y].inst) == Delivered(s'.ws[y].pc)
    {
      if y != w {
        SectionExit(s, w, c, s.ws[y].inst);
        if c.ChildExit? { AloneAt(s.svc, s.ws, s.hist, w, y); }
      }
    }
    forall j | EndedAs(s'.writes, j).Some? ensures LastExit(s'.hist, j) == EndedAs(s'.writes, j) {
      if j != i {
        SectionExit(s, w, c, j);
        SectionAttempt(s, w, c, j);
      }
    }
  }

  lemma SectionOneShots(s: Sys, w: Wid, c: Section)
    requires OneShots(s.svc) && CanSection(s, w, c)
    ensures OneShots(DoSection(s, w, c).svc)
  {
  }

  lemma KeptSection(s: Sys, w: Wid, c: Section)
    requires Kept(s) && Sup(s.svc, s.ws, s.hist) && CanSection(s, w, c)
    ensures Kept(DoSection(s, w, c))
  {
    hide Booked, Sequenced, Tried, Delivers, OneShots, Sup, DoSection;
    SectionBooked(s, w, c);
    SectionSequenced(s, w, c);
    SectionTried(s, w, c);
    SectionDelivers(s, w, c);
    SectionOneShots(s, w, c);
  }

  // ---------------------------------------------------------------- the other steps

  lemma NamedWrite(svc: map<Id, Inst>, writes: seq<Write>, v: Svc, x: Write)
    requires Booked(svc, writes) && Sequenced(writes) && x.id in svc && v == svc[x.id].v.(state := x.to)
    requires x.from == svc[x.id].v.state && x.cause.Named? && x.to == NamedState(x.cause.b)
    ensures Booked(Put(svc, x.id, v), writes + [x]) && Sequenced(writes + [x])
    ensures forall j :: Attempt(writes + [x], j) == Attempt(writes, j)
  {
    forall j ensures Attempt(writes + [x], j) == Attempt(writes, j) { SnocLast(writes, x, j); }
    assert InTurn(writes, x) && Fits(x, v.config);
    hide Booked, Sequenced, Fits, InTurn, Attempt;
    BookedWrite(svc, writes, v, x);
    SequencedSnoc(writes, x);
  }

  lemma NameMoves(s: Sys, w: Wid, b: ByName)
    requires CanName(s, w, b)
    ensures var s' := DoName(s, w, b);
            && s'.ws.Keys == s.ws.Keys && s'.hist == s.hist && (forall y :: y in s.ws ==> Alike(s.ws[y], s'.ws[y]))
            && (forall i :: IsScheduled(s'.svc, i) == IsScheduled(s.svc, i))
            && (!Known(s, InstOf(s, w).name) ==> s'.svc == s.svc && s'.writes == s.writes)
  {
  }

  /** Exits and attempts stay as they are. */
  lemma DeliversSame(ws: map<Wid, Watcher>, writes: seq<Write>, h: seq<Event>, ws': map<Wid, Watcher>,
      writes': seq<Write>)
    requires Delivers(ws, writes, h) && ws'.Keys == ws.Keys && forall y :: y in ws ==> Alike(ws[y], ws'[y])
    requires forall j :: Attempt(writes', j) == Attempt(writes, j)
    ensures Delivers(ws', writes', h)
  {
    hide Attempt, LastExit;
  }

  lemma KeptName(s: Sys, w: Wid, b: ByName)
    requires Kept(s) && CanName(s, w, b)
    ensures Kept(DoName(s, w, b))
  {
    var s', n := DoName(s, w, b), InstOf(s, w).name;
    NameMoves(s, w, b);
    NameOneShots(s, w, b);
    if Known(s, n) {
      var i := s.table[n];
      NameWrites(s, w, b);
      NamedWrite(s.svc, s.writes, s.svc[i].v.(state := NamedState(b)),
        Write(i, s.svc[i].v.state, NamedState(b), Named(b)));
    }
    hide Booked, Sequenced, Tried, Delivers, OneShots, Attempt, DoName;
    DeliversSame(s.ws, s.writes, s.hist, s'.ws, s'.writes);
    TriedSame(s.svc, s.ws, s.writes, s'.svc, s'.ws, s'.writes);
  }

  lemma NameOneShots(s: Sys, w: Wid, b: ByName)
    requires OneShots(s.svc) && CanName(s, w, b)
    ensures OneShots(DoName(s, w, b).svc)
  {
  }

  lemma NameWrites(s: Sys, w: Wid, b: ByName)
    requires CanName(s, w, b) && Known(s, InstOf(s, w).name)
    ensures var s', i := DoName(s, w, b), s.table[InstOf(s, w).name];
            && s'.writes == s.writes + [Write(i, s.svc[i].v.state, NamedState(b), Named(b))]
            && s'.svc == Put(s.svc, i, s.svc[i].v.(state := NamedState(b)))
  {
  }

  /** Nothing is written, and no process comes or goes. */
  lemma KeptSame(s: Sys, s': Sys)
    requires Kept(s) && s'.writes == s.writes && s.svc.Keys <= s'.svc.Keys
    requires forall i :: i in s.svc ==> SameShown(s.svc[i].v, s'.svc[i].v)
    requires forall i :: i in s'.svc && i !in s.svc ==> s'.svc[i].v.state == Unknown && !s'.svc[i].v.scheduled
    requires forall w :: w in s'.ws ==>
        if w in s.ws then Alike(s.ws[w], s'.ws[w]) else s'.ws[w].pc.Entry?
    requires forall i :: LastExit(s'.hist, i) == LastExit(s.hist, i)
    ensures Kept(s')
  {
    BookedSame(s.svc, s.writes, s'.svc);
    hide Booked, Sequenced, Attempt, LastExit;
    forall i ensures IsScheduled(s'.svc, i) == IsScheduled(s.svc, i) {
      assert i in s.svc || i !in s.svc;
    }
    TriedSame(s.svc, s.ws, s.writes, s'.svc, s'.ws, s'.writes);
  }

  predicate SameShown(u: Svc, v: Svc) {
    v.state == u.state && v.config == u.config && v.scheduled == u.scheduled
  }

  predicate Alike(x: Watcher, y: Watcher) {
    && y.inst == x.inst && Active(y.pc) == Active(x.pc) && HasProcess(y.pc) == HasProcess(x.pc)
    && Delivered(y.pc) == Delivered(x.pc)
  }

  lemma KeptTurn(s: Sys, w: Wid, t: Turn)
    requires Kept(s) && CanTurn(s, w, t)
    ensures Kept(DoTurn(s, w, t))
  {
    TurnAlike(s, w, t);
    hide Kept, Alike, CanTurn, TurnTo;
    AlikeSelf(s.ws);
    KeptSame(s, DoTurn(s, w, t));
  }

  lemma AlikeSelf(ws: map<Wid, Watcher>)
    ensures forall w :: w in ws ==> Alike(ws[w], ws[w])
  {
  }

  lemma TurnAlike(s: Sys, w: Wid, t: Turn)
    requires CanTurn(s, w, t)
    ensures Alike(s.ws[w], DoTurn(s, w, t).ws[w])
  {
  }

  lemma RetargetExits(s: Sys, n: Name, t: Target, i: Id)
    ensures LastExit(Retarget(s, n, t).hist, i) == LastExit(s.hist, i)
  {
    if Known(s, n) {
      SnocExit(s.hist, if t.Down? then Lower(s.table[n], s.svc[s.table[n]].v.pid) else Raise(s.table[n]), i);
    }
  }

  lemma KeptRetarget(s: Sys, n: Name, t: Target)
    requires Kept(s)
    ensures Kept(Retarget(s, n, t))
  {
    forall i ensures LastExit(Retarget(s, n, t).hist, i) == LastExit(s.hist, i) { RetargetExits(s, n, t, i); }
    AlikeSelf(s.ws);
    hide Kept, Alike, LastExit;
    KeptSame(s, Retarget(s, n, t));
  }

  lemma KeptLike(s: Sys, s': Sys)
    requires Kept(s) && s'.svc == s.svc && s'.ws == s.ws && s'.writes == s.writes && s'.hist == s.hist
    ensures Kept(s')
  {
    hide Booked, Sequenced, Tried, Delivers, OneShots;
  }

  lemma KeptEvent(s: Sys, s': Sys, e: Event)
    requires Kept(s) && s'.svc == s.svc && s'.ws == s.ws && s'.writes == s.writes && s'.hist == s.hist + [e] && !e.Exit?
    ensures Kept(s')
  {
    forall i ensures LastExit(s'.hist, i) == LastExit(s.hist, i) { SnocExit(s.hist, e, i); }
    AlikeSelf(s.ws);
    hide Kept, Alike, LastExit;
    KeptSame(s, s');
  }

  lemma KeptInsert(s: Sys, n: Name, c: Config, i: Id, w: Wid)
    requires Kept(s) && CanRequest(s, MonitorInsert(n, c, i, w))
    ensures Kept(DoInsert(s, n, c, i, w))
  {
    AlikeSelf(s.ws);
    hide Kept, Alike, LastExit;
    KeptSame(s, DoInsert(s, n, c, i, w));
  }

  lemma KeptWatch(s: Sys, n: Name, w: Wid)
    requires Kept(s) && w !in s.ws
    ensures Kept(DoWatch(s, n, w))
  {
    AlikeSelf(s.ws);
    hide Kept, Alike, LastExit;
    KeptSame(s, DoWatch(s, n, w));
  }

  lemma KeptForget(s: Sys, n: Name)
    requires Kept(s)
    ensures Kept(DoForget(s, n))
  {
    hide Kept;
    if Known(s, n) && Forgettable(s.svc[s.table[n]].v) {
      KeptEvent(s, DoForget(s, n), Remove(s.table[n]));
    }
  }

  lemma KeptRequest(s: Sys, r: Request)
    requires Kept(s) && CanRequest(s, r)
    ensures Kept(DoRequest(s, r))
  {
    hide Kept, Retarget, DoInsert, DoWatch, DoForget;
    match r
    case MonitorInsert(n, c, i, w) => KeptInsert(s, n, c, i, w);
    case StartTarget(n) =>
      KeptRetarget(s, n, Up);
      KeptLike(Retarget(s, n, Up), DoRequest(s, r));
    case StartWatch(n, w) => KeptWatch(s, n, w);
    case Stop(n) => KeptRetarget(s, n, Down);
    case Forget(n) => KeptForget(s, n);
    case _ => KeptLike(s, DoRequest(s, r));
  }

  lemma KeptShut(s: Sys, k: Kid, d: Shutting)
    requires Kept(s) && CanShut(s, k, d)
    ensures Kept(DoShut(s, k, d))
  {
    hide Kept, Retarget;
    match d
    case SetFlag => KeptEvent(s, DoShut(s, k, d), Shut);
    case KillStop =>
      KeptRetarget(s, s.kills[k].name, Down);
      KeptLike(Retarget(s, s.kills[k].name, Down), DoShut(s, k, d));
    case KillSignal =>
      var n := s.kills[k].name;
      if PidByName(s, n) != 0 {
        KeptEvent(s, DoShut(s, k, d), Sigkill(s.table[n], PidByName(s, n)));
      } else {
        KeptLike(s, DoShut(s, k, d));
      }
    case _ => KeptLike(s, DoShut(s, k, d));
  }

  lemma KeptStep(s: Sys, l: Label)
    requires Kept(s) && Inv(s) && Enabled(s, l)
    ensures Kept(Apply(s, l))
  {
    hide Kept, Refs, Sup, TargetOk, StateOk, Legal, DoRequest, DoTurn, DoSection, DoName, DoShut;
    match l
    case Api(r) => KeptRequest(s, r);
    case Turns(w, t) => KeptTurn(s, w, t);
    case Sections(w, c) => KeptSection(s, w, c);
    case Names(w, b) => KeptName(s, w, b);
    case NotifyTest(n) => KeptLike(s, Apply(s, l));
    case Shuts(k, d) => KeptShut(s, k, d);
  }

  lemma {:induction false} RunKept(ls: seq<Label>)
    requires Exec(ls).Some?
    ensures Kept(Exec(ls).value)
    decreases |ls|
  {
    if ls == [] {
    } else {
      RunKept(ls[..|ls| - 1]);
      RunInv(ls[..|ls| - 1]);
      KeptStep(Exec(ls[..|ls| - 1]).value, ls[|ls| - 1]);
    }
  }

  // ---------------------------------------------------------------- what an instance shows

  /** An instance shows the state last forced on it, or Unknown; and each write forces Spawned for a spawn,
      Running for a one-shot's spawn or a passed test, Failure for a failed spawn, Success for exit code 0
      and Error with the status for any other end, Blocked for an unsatisfied check, TestFailure for a test
      that could not be run. */
  lemma StateIsLastForced(ls: seq<Label>, i: Id)
    requires Exec(ls).Some? && i in Exec(ls).value.svc
    ensures var s := Exec(ls).value; var v := s.svc[i].v;
            match Last(s.writes, i)
            case None => v.state == Unknown
            case Some(x) =>
              && v.state == x.to
              && match x.cause
                 case Started => v.state == State.Spawned && !v.config.oneShot
                 case Ran => v.state == Running && v.config.oneShot
                 case Refused => v.state == Failure
                 case Ended(st) => v.state == if st == ExitCode(0) then Success else Error(st)
                 case Named(b) =>
                   match b
                   case SetBlocked => v.state == Blocked
                   case TestPass => v.state == Running
                   case TestError => v.state == TestFailure
  {
    RunKept(ls);
    var s := Exec(ls).value;
    hide Exec, Sequenced, Tried, Delivers;
    if Last(s.writes, i).Some? { var k := LastAt(s.writes, i); }
  }

  lemma {:induction false} LastAt(writes: seq<Write>, i: Id) returns (k: nat)
    requires Last(writes, i).Some?
    ensures k < |writes| && writes[k] == Last(writes, i).value && writes[k].id == i
    ensures forall j :: k < j < |writes| ==> writes[j].id != i
    decreases |writes|
  {
    if writes[|writes| - 1].id == i {
      k := |writes| - 1;
    } else {
      k := LastAt(writes[..|writes| - 1], i);
    }
  }

  /** The status an instance shows is that of its last exit: if the last write is the end of a process, that
      exit was delivered, none came after it, and the state is Success for exit code 0, Error otherwise. */
  lemma ShowsLastExit(ls: seq<Label>, i: Id, st: WaitStatus)
    requires Exec(ls).Some? && i in Exec(ls).value.svc
    requires Last(Exec(ls).value.writes, i).Some? && Last(Exec(ls).value.writes, i).value.cause == Ended(st)
    ensures var s := Exec(ls).value;
            && LastExit(s.hist, i) == Some(st)
            && s.svc[i].v.state == if st == ExitCode(0) then Success else Error(st)
  {
    RunKept(ls);
    StateIsLastForced(ls, i);
    var s := Exec(ls).value;
    hide Exec, Booked, Sequenced, Tried;
    EndIsAttempt(s.writes, i);
  }

  lemma {:induction false} EndIsAttempt(writes: seq<Write>, i: Id)
    requires Last(writes, i).Some? && Last(writes, i).value.cause.Ended?
    ensures Attempt(writes, i) == Some(Last(writes, i).value.cause)
    decreases |writes|
  {
    if writes[|writes| - 1].id == i {
    } else {
      EndIsAttempt(writes[..|writes| - 1], i);
    }
  }

  /** After a failed spawn an instance shows Failure until it is spawned again or written by name. */
  lemma FailureShows(ls: seq<Label>, i: Id, a: nat)
    requires Exec(ls).Some? && a < |Exec(ls).value.writes|
    requires Exec(ls).value.writes[a].id == i && Exec(ls).value.writes[a].cause.Refused?
    requires forall b :: a < b < |Exec(ls).value.writes| && Exec(ls).value.writes[b].id == i ==>
        !Exec(ls).value.writes[b].cause.Started? && !Exec(ls).value.writes[b].cause.Named?
    ensures i in Exec(ls).value.svc && Exec(ls).value.svc[i].v.state == Failure
  {
    RunKept(ls);
    var s := Exec(ls).value;
    assert i in s.svc;
    LastOfRefused(s.writes, i, a);
    StateIsLastForced(ls, i);
  }

  /** Without a spawn or a write by name, only failed spawns follow a failed spawn. */
  lemma {:induction false} LastOfRefused(writes: seq<Write>, i: Id, a: nat)
    requires Sequenced(writes) && a < |writes| && writes[a].id == i && writes[a].cause.Refused?
    requires forall b :: a < b < |writes| && writes[b].id == i ==>
        !writes[b].cause.Started? && !writes[b].cause.Named?
    ensures Last(writes, i).Some? && Last(writes, i).value.cause.Refused? && Attempt(writes, i) == Some(Refused)
    decreases |writes|
  {
    var init, x := writes[..|writes| - 1], writes[|writes| - 1];
    assert InTurn(writes[..|writes| - 1], x);
    if a < |writes| - 1 {
      assert Sequenced(init) by {
        forall k | 0 <= k < |init| ensures InTurn(init[..k], init[k]) {
          assert InTurn(writes[..k], writes[k]);
          assert init[..k] == writes[..k];
        }
      }
      LastOfRefused(init, i, a);
      assert x.cause.Ran? ==> writes[|writes| - 2].id == x.id && writes[|writes| - 2].cause.Started?;
    }
  }
}
