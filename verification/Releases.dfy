/** How a dependency lets its dependants go: through a passed test, or as a one-shot that succeeded. */
module Releases {
  import opened Basics
  import opened Service
  import opened Watch
  import opened Supervision
  import Trace
  import opened WatchRuns
  import opened Limits
  import opened Progress
  import opened Escapes

  /** A write by name in a reachable state: the instance the name has in the table, if any, shows Blocked,
      Running or TestFailure, and no other instance changes. A passed test makes it a met dependency exactly
      if it is no one-shot, and ends the test loop, which then owes a notification; a test that could not be
      run leaves the loop going. */
  lemma NamedEffect(ls: seq<Label>, w: Wid, b: ByName)
    requires Exec(ls).Some? && Enabled(Exec(ls).value, Names(w, b))
    ensures var s := Exec(ls).value; var s' := Apply(s, Names(w, b)); var n := InstOf(s, w).name;
            && (forall i :: i in s.svc && !(n in s.table && s.table[n] == i) ==> i in s'.svc && s'.svc[i] == s.svc[i])
            && (n in s.table ==>
                  && s.table[n] in s.svc
                  && s'.svc[s.table[n]] == Inst(n, s.svc[s.table[n]].v.(state :=
                       match b case SetBlocked => Blocked case TestPass => Running case TestError => TestFailure))
                  && (b.TestPass? ==> (Satisfied(s'.table, s'.svc, n) <==> !s.svc[s.table[n]].v.config.oneShot)))
            && s'.ws[w].tests == (if b.TestPass? then s.ws[w].tests - 1 else s.ws[w].tests)
            && s'.owed == (if b.TestPass? then s.owed + multiset{n} else s.owed)
            && (b.SetBlocked? ==> s.ws[w].pc.Unmet? && s'.ws[w].pc == Parked(s.ws[w].pc.epoch, s.ws[w].pc.dep))
            && (!b.SetBlocked? ==> s'.ws[w].pc == s.ws[w].pc)
  {
    RunInv(ls);
    hide Exec, Sup, Trace.TargetOk, Trace.StateOk, Trace.Legal;
  }

  /** What the parked watcher waits for is met once `n` is. */
  predicate AllBut(s: Sys, x: Wid, n: Name)
    requires At(s, x)
  {
    forall d :: 0 <= d < |InstOf(s, x).v.config.after| ==>
      InstOf(s, x).v.config.after[d] == n || RipeName(s, InstOf(s, x).v.config.after[d])
  }

  /** Only the instance of `n` has changed, and it is met now. */
  lemma RipeAfter(s: Sys, m: Sys, x: Wid, n: Name)
    requires At(s, x) && At(m, x) && m.ws[x] == s.ws[x] && m.table == s.table && AllBut(s, x, n) && RipeName(m, n)
    requires Refs(s.table, s.svc, s.ws) && n in s.table && m.svc.Keys == s.svc.Keys
    requires forall i :: i in s.svc && i != s.table[n] ==> m.svc[i] == s.svc[i]
    requires InstOf(m, x).v.config == InstOf(s, x).v.config
    ensures Ripe(m, x)
  {
    forall d | 0 <= d < |InstOf(m, x).v.config.after| ensures RipeName(m, InstOf(m, x).v.config.after[d]) {
      var k := InstOf(m, x).v.config.after[d];
      if k != n {
        assert RipeName(s, k);
        assert s.svc[s.table[k]].name == k && s.svc[s.table[n]].name == n;
      }
    }
  }

  /** The instance of `n` taken for Running, and a test loop of `w` gone. */
  function Passed(s: Sys, w: Wid, n: Name): Sys
    requires At(s, w) && Known(s, n) && s.ws[w].tests > 0
  {
    var j := s.table[n];
    s.(svc := s.svc[j := Inst(s.svc[j].name, s.svc[j].v.(state := Running))],
       ws := s.ws[w := Watcher(s.ws[w].inst, s.ws[w].pc, s.ws[w].tests - 1)])
  }

  lemma PassEffect(s: Sys, w: Wid)
    requires CanName(s, w, TestPass) && Known(s, InstOf(s, w).name)
    ensures var n, m := InstOf(s, w).name, DoName(s, w, TestPass);
            m == Passed(s, w, n).(owed := s.owed + multiset{n}, writes := m.writes)
  {
  }

  lemma PassFirst(ls: seq<Label>, w: Wid) returns (b: Sys)
    requires Exec(ls).Some? && At(Exec(ls).value, w) && Exec(ls).value.ws[w].tests > 0
    requires Known(Exec(ls).value, InstOf(Exec(ls).value, w).name)
    ensures var s := Exec(ls).value; var n := InstOf(s, w).name;
            && Exec(ls + [Names(w, TestPass)]) == Some(b)
            && b == Passed(s, w, n).(owed := s.owed + multiset{n}, writes := b.writes)
  {
    var s := Exec(ls).value;
    PassEffect(s, w);
    PassStep(s, w);
    hide DoName, Passed, Enabled, Apply, CanName;
    var ls';
    ls', b := Take(ls, s, Names(w, TestPass));
  }

  /** A test loop that passes and notifies. */
  lemma Passes(ls: seq<Label>, w: Wid) returns (more: seq<Label>, m: Sys)
    requires Exec(ls).Some? && At(Exec(ls).value, w) && Exec(ls).value.ws[w].tests > 0
    requires Known(Exec(ls).value, InstOf(Exec(ls).value, w).name)
    ensures var s := Exec(ls).value; var n := InstOf(s, w).name;
            && Exec(ls + more) == Some(m) && more == [Names(w, TestPass), NotifyTest(n)]
            && m == Passed(s, w, n).(epoch := s.epoch + 1, writes := m.writes)
  {
    var s := Exec(ls).value;
    var n := InstOf(s, w).name;
    PassedKeeps(s, w, n);
    var b := PassFirst(ls, w);
    NotifyStep(b, n);
    hide Exec, Passed, Enabled, Apply;
    more, m := Go(ls, [Names(w, TestPass)], b, NotifyTest(n));
    OwesNoMore(Passed(s, w, n), b, m, n);
  }

  lemma OwesNoMore(p: Sys, b: Sys, m: Sys, n: Name)
    requires b == p.(owed := p.owed + multiset{n}, writes := b.writes)
    requires m == b.(owed := b.owed - multiset{n}, epoch := b.epoch + 1)
    ensures m == p.(epoch := p.epoch + 1, writes := m.writes)
  {
    assert p.owed + multiset{n} - multiset{n} == p.owed;
  }

  lemma PassStep(s: Sys, w: Wid)
    requires At(s, w) && s.ws[w].tests > 0
    ensures Enabled(s, Names(w, TestPass)) && Apply(s, Names(w, TestPass)) == DoName(s, w, TestPass)
  {
  }

  lemma NotifyStep(s: Sys, n: Name)
    requires n in s.owed
    ensures Enabled(s, NotifyTest(n))
    ensures Apply(s, NotifyTest(n)) == s.(owed := s.owed - multiset{n}, epoch := s.epoch + 1)
  {
  }

  lemma PassedKeeps(s: Sys, w: Wid, n: Name)
    requires At(s, w) && Known(s, n) && s.ws[w].tests > 0
    ensures Passed(s, w, n).owed == s.owed && Passed(s, w, n).epoch == s.epoch
  {
  }

  /** Watcher `x` is parked for `n` alone: its instance, another one, is Up, and everything else it lists is
      met; and `q` is a pid it may get. */
  ghost predicate ParkedFor(s: Sys, x: Wid, n: Name, q: Pid) {
    && n in s.table && At(s, x) && s.ws[x].pc.Parked? && s.ws[x].pc.epoch <= s.epoch && s.ws[x].inst != s.table[n]
    && InstOf(s, x).v.target == Up && AllBut(s, x, n)
    && q != 0 && forall y :: y in s.ws ==> s.ws[y].pc != Waiting(q, None)
  }

  /** After a notification that left `n` met and only its instance changed, nothing is in the way of `x`. */
  lemma FreeToGo(s: Sys, m: Sys, x: Wid, n: Name, q: Pid, w: Wid)
    requires ParkedFor(s, x, n, q) && Refs(s.table, s.svc, s.ws) && w != x && w in s.ws && w in m.ws
    requires m.table == s.table && m.svc.Keys == s.svc.Keys && m.epoch > s.epoch && RipeName(m, n)
    requires forall i :: i in s.svc && i != s.table[n] ==> m.svc[i] == s.svc[i]
    requires m.ws == s.ws[w := m.ws[w]] && m.ws[w].pc != Waiting(q, None)
    ensures At(m, x) && InstOf(m, x).v.target == Up && Ripe(m, x) && Unhindered(m, x)
    ensures forall y :: y in m.ws ==> m.ws[y].pc != Waiting(q, None)
  {
    hide RipeName, Refs;
    RipeAfter(s, m, x, n);
  }

  /** `s'` is `m` with the process `q` of watcher `x`'s instance spawned. */
  ghost predicate Freed(m: Sys, s': Sys, x: Wid, q: Pid)
    requires At(m, x)
  {
    var i := m.ws[x].inst;
    && |s'.hist| == |m.hist| + 1 && m.hist <= s'.hist && s'.hist[|m.hist|].Spawn? && s'.hist[|m.hist|].id == i
    && i in s'.svc && s'.svc[i].v.pid == q && s'.table == m.table
    && forall j :: j in m.svc && j != i ==> j in s'.svc && s'.svc[j] == m.svc[j]
  }

  lemma SpawnFrees(m: Sys, s': Sys, x: Wid, q: Pid)
    requires At(m, x) && HasSpawned(m, s', x, q)
    ensures Freed(m, s', x, q)
  {
  }

  /** From any reachable state: when the test of an ordinary service passes, a watcher parked for it alone can
      spawn its own service, while the dependency is Running, with its pid as it was. */
  lemma TestReleases(ls: seq<Label>, w: Wid, x: Wid, q: Pid) returns (more: seq<Label>)
    requires Exec(ls).Some? && At(Exec(ls).value, w) && Exec(ls).value.ws[w].tests > 0 && w != x
    requires ParkedFor(Exec(ls).value, x, InstOf(Exec(ls).value, w).name, q)
    requires var s := Exec(ls).value; var n := InstOf(s, w).name;
             Known(s, n) && !s.svc[s.table[n]].v.config.oneShot
    ensures Exec(ls + more).Some?
    ensures var s := Exec(ls).value; var s' := Exec(ls + more).value;
            var i, j := s.ws[x].inst, s.table[InstOf(s, w).name];
            && |s'.hist| == |s.hist| + 1 && s.hist <= s'.hist && s'.hist[|s.hist|].Spawn? && s'.hist[|s.hist|].id == i
            && i in s'.svc && s'.svc[i].v.pid == q && s'.table == s.table
            && j in s'.svc && s'.svc[j].v == s.svc[j].v.(state := Running)
  {
    var s := Exec(ls).value;
    var n := InstOf(s, w).name;
    RunInv(ls);
    var a, m := Passes(ls, w);
    ParkedPid(s, x, n, q);
    assert Refs(s.table, s.svc, s.ws);
    hide Exec, Sup, HasSpawned, ParkedFor, Ripe, Unhindered, Inv, Refs, Freed;
    PassedFrame(s, m, w, x, n, q);
    hide Passed;
    FreeToGo(s, m, x, n, q, w);
    more := GoesOn(ls, a, m, x, q);
    FreedAfterPass(s, m, Exec(ls + more).value, x, n, q);
  }

  lemma FreedAfterPass(s: Sys, m: Sys, s': Sys, x: Wid, n: Name, q: Pid)
    requires At(s, x) && At(m, x) && Freed(m, s', x, q) && m.ws[x].inst == s.ws[x].inst
    requires m.table == s.table && m.hist == s.hist && n in s.table && s.table[n] in m.svc
    requires s.ws[x].inst != s.table[n]
    ensures var i, j := s.ws[x].inst, s.table[n];
            && |s'.hist| == |s.hist| + 1 && s.hist <= s'.hist && s'.hist[|s.hist|].Spawn? && s'.hist[|s.hist|].id == i
            && i in s'.svc && s'.svc[i].v.pid == q && s'.table == s.table
            && j in s'.svc && s'.svc[j] == m.svc[j]
  {
  }

  lemma PassedFrame(s: Sys, m: Sys, w: Wid, x: Wid, n: Name, q: Pid)
    requires ParkedFor(s, x, n, q) && At(s, w) && s.ws[w].tests > 0 && Known(s, n)
        && !s.svc[s.table[n]].v.config.oneShot
    requires m == Passed(s, w, n).(epoch := s.epoch + 1, writes := m.writes)
    ensures RipeName(m, n) && m.svc.Keys == s.svc.Keys && m.ws == s.ws[w := m.ws[w]] && m.ws[w].pc != Waiting(q, None)
    ensures s.ws[x].inst != s.table[n] && m.table == s.table && m.hist == s.hist && m.epoch == s.epoch + 1
    ensures m.svc[s.table[n]].v == s.svc[s.table[n]].v.(state := Running)
    ensures forall i :: i in s.svc && i != s.table[n] ==> m.svc[i] == s.svc[i]
  {
  }

  /** The watcher spawns, and what it is told afterwards. */
  lemma GoesOn(ls: seq<Label>, a: seq<Label>, m: Sys, x: Wid, q: Pid) returns (more: seq<Label>)
    requires Exec(ls + a) == Some(m) && At(m, x) && InstOf(m, x).v.target == Up && Ripe(m, x) && Unhindered(m, x)
    requires q != 0 && forall y :: y in m.ws ==> m.ws[y].pc != Waiting(q, None)
    ensures Exec(ls + more).Some? && Freed(m, Exec(ls + more).value, x, q)
  {
    hide Exec, HasSpawned, Ripe, Unhindered, Freed;
    var b := SpawnsAlone(ls + a, x, q);
    Joined(ls, a, b);
    more := a + b;
    SpawnFrees(m, Exec(ls + more).value, x, q);
  }

  /** From any reachable state: when a one-shot exits with 0, a watcher parked for it alone can spawn its own
      service, with the one-shot in Success, unscheduled and without a process. */
  lemma OneShotReleases(ls: seq<Label>, w: Wid, x: Wid, q: Pid) returns (more: seq<Label>)
    requires Exec(ls).Some? && At(Exec(ls).value, w)
    requires Exec(ls).value.ws[w].pc.Waiting? && Exec(ls).value.ws[w].pc.result.None?
    requires ParkedFor(Exec(ls).value, x, InstOf(Exec(ls).value, w).name, q)
    requires var s := Exec(ls).value;
             s.table[InstOf(s, w).name] == s.ws[w].inst && InstOf(s, w).v.config.oneShot
    ensures Exec(ls + more).Some?
    ensures var s := Exec(ls).value; var s' := Exec(ls + more).value; var i, j := s.ws[x].inst, s.ws[w].inst;
            && |s'.hist| == |s.hist| + 2 && s.hist <= s'.hist && s'.hist[|s.hist|] == Exit(j, ExitCode(0))
            && s'.hist[|s.hist| + 1].Spawn? && s'.hist[|s.hist| + 1].id == i
            && i in s'.svc && s'.svc[i].v.pid == q && s'.table == s.table
            && j in s'.svc && s'.svc[j].v == Svc(s.svc[j].v.config, s.svc[j].v.target, false, 0, Success)
  {
    var s := Exec(ls).value;
    var n := InstOf(s, w).name;
    RunInv(ls);
    var a, writes := OneShotEnds(ls, w, ExitCode(0));
    var m := With(s, w, After(InstOf(s, w).v, ExitCode(0)).(scheduled := false), Gone, Fewer(s.ws[w].tests),
                  [Exit(s.ws[w].inst, ExitCode(0))], 1, writes);
    ParkedPid(s, x, n, q);
    assert Refs(s.table, s.svc, s.ws);
    hide Exec, Sup, HasSpawned, ParkedFor, Ripe, Unhindered, Inv, Refs, Freed;
    EndedFrame(s, m, w, x, n, q, writes);
    hide With;
    FreeToGo(s, m, x, n, q, w);
    more := GoesOn(ls, a, m, x, q);
    FreedAfterExit(s, m, Exec(ls + more).value, w, x, q);
  }

  lemma ParkedPid(s: Sys, x: Wid, n: Name, q: Pid)
    requires ParkedFor(s, x, n, q)
    ensures q != 0 && At(s, x) && n in s.table
  {
  }

  lemma FreedAfterExit(s: Sys, m: Sys, s': Sys, w: Wid, x: Wid, q: Pid)
    requires At(s, w) && At(s, x) && At(m, x) && Freed(m, s', x, q) && m.ws[x].inst == s.ws[x].inst
    requires m.table == s.table && m.hist == s.hist + [Exit(s.ws[w].inst, ExitCode(0))]
    requires s.ws[x].inst != s.ws[w].inst && s.ws[w].inst in m.svc
    ensures var i, j := s.ws[x].inst, s.ws[w].inst;
            && |s'.hist| == |s.hist| + 2 && s.hist <= s'.hist && s'.hist[|s.hist|] == Exit(j, ExitCode(0))
            && s'.hist[|s.hist| + 1].Spawn? && s'.hist[|s.hist| + 1].id == i
            && i in s'.svc && s'.svc[i].v.pid == q && s'.table == s.table
            && j in s'.svc && s'.svc[j] == m.svc[j]
  {
  }

  lemma EndedFrame(s: Sys, m: Sys, w: Wid, x: Wid, n: Name, q: Pid, writes: seq<Write>)
    requires ParkedFor(s, x, n, q) && At(s, w) && s.table[n] == s.ws[w].inst && s.ws[w].pc.Waiting?
    requires m == With(s, w, After(InstOf(s, w).v, ExitCode(0)).(scheduled := false), Gone, Fewer(s.ws[w].tests),
                       [Exit(s.ws[w].inst, ExitCode(0))], 1, writes)
    ensures RipeName(m, n) && m.svc.Keys == s.svc.Keys && m.ws == s.ws[w := m.ws[w]] && m.ws[w].pc != Waiting(q, None)
    ensures m.table == s.table && m.epoch == s.epoch + 1 && w != x && s.ws[x].inst != s.table[n]
    ensures m.hist == s.hist + [Exit(s.ws[w].inst, ExitCode(0))]
    ensures forall i :: i in s.svc && i != s.table[n] ==> m.svc[i] == s.svc[i]
    ensures m.svc[s.table[n]].v ==
              Svc(InstOf(s, w).v.config, InstOf(s, w).v.target, false, 0, Success)
  {
  }

  // ---------------------------------------------------------------- test loops

  /** A live test loop can pass at any time, can end, which makes one loop less and changes nothing else, and
      can find that its test cannot be run exactly if the service has a test. */
  lemma TestLoop(s: Sys, w: Wid)
    requires At(s, w) && s.ws[w].tests > 0
    ensures Enabled(s, Names(w, TestPass)) && Enabled(s, Turns(w, TestEnd))
    ensures Enabled(s, Names(w, TestError)) <==> InstOf(s, w).v.config.hasTest
    ensures Apply(s, Turns(w, TestEnd)) ==
              s.(ws := s.ws[w := Watcher(s.ws[w].inst, s.ws[w].pc, s.ws[w].tests - 1)])
  {
  }

  // ---------------------------------------------------------------- runs in which they do

  /** `a` runs with its test loop alive while the watcher of `b`, which lists `a`, is parked for it. */
  lemma Waits(a: Name, ca: Config, b: Name, cb: Config, p: Pid) returns (ls: seq<Label>, s: Sys)
    requires a != b && ca.after == [] && cb.after == [a] && p != 0
    ensures Exec(ls) == Some(s)
    ensures Pair(s, a, SpawnedAs(Scheduled(New(ca)), p), Watcher(0, Waiting(p, None), if ca.oneShot then 0 else 1),
                 b, Scheduled(New(cb)).(state := Blocked), Watcher(1, Parked(0, 0), 0))
  {
    ls, s := SecondChecks(a, ca, b, cb);
    var vb := Scheduled(New(cb)).(state := Blocked);
    ls, s := Take(ls, s, Turns(1, ReadDep));
    assert Pair(s, a, New(ca), Watcher(0, Entry, 0), b, Scheduled(New(cb)), Watcher(1, Unmet(0, 0), 0));
    ls, s := Take(ls, s, Names(1, SetBlocked));
    assert Pair(s, a, New(ca), Watcher(0, Entry, 0), b, vb, Watcher(1, Parked(0, 0), 0));
    ls, s := Starts(ls, s, a, ca, b, vb, p);
  }

  lemma Starts(ls0: seq<Label>, s0: Sys, a: Name, ca: Config, b: Name, vb: Svc, p: Pid) returns (ls: seq<Label>, s: Sys)
    requires Exec(ls0) == Some(s0) && ca.after == [] && p != 0
    requires Pair(s0, a, New(ca), Watcher(0, Entry, 0), b, vb, Watcher(1, Parked(0, 0), 0))
    ensures Exec(ls) == Some(s)
    ensures Pair(s, a, SpawnedAs(Scheduled(New(ca)), p), Watcher(0, Waiting(p, None), if ca.oneShot then 0 else 1),
                 b, vb, Watcher(1, Parked(0, 0), 0))
  {
    ls, s := FirstReady(ls0, s0, a, ca, b, vb, Watcher(1, Parked(0, 0), 0));
    ls, s := Take(ls, s, Sections(0, SpawnSection(Some(p))));
  }

  lemma PairParks(s: Sys, a: Name, ca: Config, b: Name, cb: Config, p: Pid, q: Pid)
    requires Pair(s, a, SpawnedAs(Scheduled(New(ca)), p), Watcher(0, Waiting(p, None), if ca.oneShot then 0 else 1),
                  b, Scheduled(New(cb)).(state := Blocked), Watcher(1, Parked(0, 0), 0))
    requires cb.after == [a] && q != 0 && q != p
    ensures a in s.table && s.table[a] == 0 && b in s.table && s.table[b] == 1 && Known(s, a)
    ensures At(s, 0) && InstOf(s, 0) == Inst(a, SpawnedAs(Scheduled(New(ca)), p))
    ensures s.ws[0] == Watcher(0, Waiting(p, None), if ca.oneShot then 0 else 1)
    ensures 1 in s.ws && s.ws[1].inst == 1 && ParkedFor(s, 1, a, q)
  {
  }

  /** A run that spawns `b` while the process of its dependency `a` is on record. */
  lemma SpawnedOnRunning(a: Name, ca: Config, b: Name, cb: Config, p: Pid, q: Pid) returns (ls: seq<Label>)
    requires a != b && ca.after == [] && !ca.oneShot && cb.after == [a] && p != 0 && q != 0 && q != p
    ensures Exec(ls).Some?
    ensures var s := Exec(ls).value;
            && a in s.table && s.table[a] == 0 && b in s.table && s.table[b] == 1
            && 0 in s.svc && s.svc[0].v.pid == p && s.svc[0].v.state == Running
            && s.hist != [] && s.hist[|s.hist| - 1].Spawn? && s.hist[|s.hist| - 1].id == 1
  {
    var s := Init();
    ls, s := Waits(a, ca, b, cb, p);
    PairParks(s, a, ca, b, cb, p, q);
    hide Exec, Pair, ParkedFor;
    var more := TestReleases(ls, 0, 1, q);
    ls := ls + more;
  }

  /** A run that spawns `b` after its one-shot dependency `a` has exited with 0 and gone. */
  lemma SpawnedAfterOneShot(a: Name, ca: Config, b: Name, cb: Config, p: Pid, q: Pid) returns (ls: seq<Label>)
    requires a != b && ca.after == [] && ca.oneShot && cb.after == [a] && p != 0 && q != 0 && q != p
    ensures Exec(ls).Some?
    ensures var s := Exec(ls).value;
            && 0 in s.svc && s.svc[0].v == Svc(ca, Up, false, 0, Success)
            && |s.hist| >= 2 && s.hist[|s.hist| - 2] == Exit(0, ExitCode(0))
            && s.hist[|s.hist| - 1].Spawn? && s.hist[|s.hist| - 1].id == 1
  {
    var s := Init();
    ls, s := Waits(a, ca, b, cb, p);
    PairParks(s, a, ca, b, cb, p, q);
    hide Exec, Pair, ParkedFor;
    var more := OneShotReleases(ls, 0, 1, q);
    ls := ls + more;
  }
}
