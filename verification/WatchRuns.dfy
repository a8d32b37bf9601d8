/** What every run of the watcher protocol guarantees. */
module WatchRuns {
  import opened Basics
  import opened Service
  import opened Watch
  import opened Supervision
  import opened Trace
  import Paths
  import Ord

  ghost predicate Inv(s: Sys) {
    && Refs(s.table, s.svc, s.ws)
    && Sup(s.svc, s.ws, s.hist)
    && TargetOk(s.table, s.svc, s.hist)
    && StateOk(s.svc, s.ws, s.hist)
    && Legal(s.svc, s.hist)
  }

  lemma InvStep(s: Sys, l: Label)
    requires Inv(s) && Enabled(s, l)
    ensures Inv(Apply(s, l))
  {
    hide Refs, Sup, TargetOk, StateOk, Legal, Apply, Enabled;
    RefsStep(s, l);
    SupStep(s, l);
    TargetStep(s, l);
    StateStep(s, l);
    LegalStep(s, l);
  }

  lemma {:induction false} RunInv(ls: seq<Label>)
    requires Exec(ls).Some?
    ensures Inv(Exec(ls).value)
    ensures var s := Exec(ls).value;
            Sup(s.svc, s.ws, s.hist) && TargetOk(s.table, s.svc, s.hist) && Legal(s.svc, s.hist)
    decreases |ls|
  {
    if ls == [] {
    } else {
      RunInv(ls[..|ls| - 1]);
      InvStep(Exec(ls[..|ls| - 1]).value, ls[|ls| - 1]);
    }
  }

  // ---------------------------------------------------------------- one supervisor

  ghost predicate Supervises(s: Sys, w: Wid, i: Id) {
    w in s.ws && Active(s.ws[w].pc) && s.ws[w].inst == i
  }

  /** However many `monitor` and `start` calls run: an instance has at most one watcher past the gate,
      `scheduled` says whether there is one, and the recorded pid is nonzero exactly while that watcher
      is between its spawn and its exit section, and is that process. */
  lemma SingleSupervisor(ls: seq<Label>, i: Id)
    requires Exec(ls).Some? && i in Exec(ls).value.svc
    ensures var s := Exec(ls).value;
            && (forall w, x :: Supervises(s, w, i) && Supervises(s, x, i) ==> w == x)
            && (s.svc[i].v.scheduled <==> exists w :: Supervises(s, w, i))
            && (forall w :: Supervises(s, w, i) ==> s.svc[i].v.pid == PidOf(s.ws[w].pc))
            && (s.svc[i].v.pid != 0 <==> exists w :: Supervises(s, w, i) && (s.ws[w].pc.Waiting? || s.ws[w].pc.Reaped?))
  {
    RunInv(ls);
    var s := Exec(ls).value;
    hide Exec, TargetOk, StateOk, Legal;
    if IsScheduled(s.svc, i) {
      var w :| w in s.ws && Active(s.ws[w].pc) && s.ws[w].inst == i;
      assert Supervises(s, w, i);
      assert PcOk(s.ws[w]);
    }
    forall w | Supervises(s, w, i)
      ensures IsScheduled(s.svc, i) && s.svc[i].v.pid == PidOf(s.ws[w].pc) && PcOk(s.ws[w])
    {
    }
  }

  /** An instance has a live process exactly when the pid on record is that of a waiting watcher's child,
      and none when that pid is 0. */
  lemma PidShowsProcess(ls: seq<Label>, i: Id)
    requires Exec(ls).Some? && i in Exec(ls).value.svc
    ensures var s := Exec(ls).value;
            && (Live(s.hist, i) <==>
              exists w :: w in s.ws && s.ws[w].inst == i && s.ws[w].pc == Waiting(s.svc[i].v.pid, None))
            && (s.svc[i].v.pid == 0 ==> !Live(s.hist, i))
  {
    RunInv(ls);
    var s := Exec(ls).value;
    hide Exec, Refs, TargetOk, StateOk, Legal;
    LivePid(s.svc, s.ws, s.hist, i);
  }

  lemma LivePid(svc: map<Id, Inst>, ws: map<Wid, Watcher>, h: seq<Event>, i: Id)
    requires Sup(svc, ws, h) && i in svc
    ensures Live(h, i) <==> exists w :: w in ws && ws[w].inst == i && ws[w].pc == Waiting(svc[i].v.pid, None)
    ensures svc[i].v.pid == 0 ==> !Live(h, i)
  {
    hide Live;
    if IsScheduled(svc, i) {
      var w :| w in ws && Active(ws[w].pc) && ws[w].inst == i;
      assert PcOk(ws[w]);
      if Live(h, i) { assert ws[w].pc == Waiting(svc[i].v.pid, None); }
    }
  }

  // ---------------------------------------------------------------- histories

  lemma {:induction false} RaiseBetween(h: seq<Event>, i: Id, a: nat)
    requires a < |h| && h[a].Lower? && h[a].id == i && !Lowered(h, i)
    ensures exists c :: a < c < |h| && h[c] == Raise(i)
    decreases |h|
  {
    var init := h[..|h| - 1];
    if h[|h| - 1] != Raise(i) {
      assert a < |init|;
      RaiseBetween(init, i, a);
      var c :| a < c < |init| && init[c] == Raise(i);
      assert h[c] == Raise(i);
    }
  }

  lemma {:induction false} ExitBetween(h: seq<Event>, i: Id, a: nat)
    requires a < |h| && h[a].Spawn? && h[a].id == i && !Live(h, i)
    ensures exists c :: a < c < |h| && h[c].Exit? && h[c].id == i
    decreases |h|
  {
    var init := h[..|h| - 1];
    if !(h[|h| - 1].Exit? && h[|h| - 1].id == i) {
      assert a < |init|;
      ExitBetween(init, i, a);
      var c :| a < c < |init| && init[c].Exit? && init[c].id == i;
      assert h[c] == init[c];
    }
  }

  lemma SpawnAt(ls: seq<Label>, b: nat)
    requires Exec(ls).Some? && b < |Exec(ls).value.hist| && Exec(ls).value.hist[b].Spawn?
    ensures var h := Exec(ls).value.hist; LegalSpawn(Exec(ls).value.svc, h[..b], h[b].id, h[b].name, h[b].deps)
  {
    RunInv(ls);
  }

  /** From a `stop` until a later `start` of the same instance, no process of it is spawned. */
  lemma StopHoldsUntilStart(ls: seq<Label>, i: Id, a: nat, b: nat)
    requires Exec(ls).Some? && a < b < |Exec(ls).value.hist|
    requires Exec(ls).value.hist[a].Lower? && Exec(ls).value.hist[a].id == i
    requires Exec(ls).value.hist[b].Spawn? && Exec(ls).value.hist[b].id == i
    ensures exists c :: a < c < b && Exec(ls).value.hist[c] == Raise(i)
  {
    var h := Exec(ls).value.hist;
    SpawnAt(ls, b);
    RaiseBetween(h[..b], i, a);
    var c :| a < c < b && h[..b][c] == Raise(i);
    assert h[c] == Raise(i);
  }

  /** An instance is spawned again only after its previous process has been reaped. */
  lemma OneProcessAtATime(ls: seq<Label>, i: Id, a: nat, b: nat)
    requires Exec(ls).Some? && a < b < |Exec(ls).value.hist|
    requires Exec(ls).value.hist[a].Spawn? && Exec(ls).value.hist[a].id == i
    requires Exec(ls).value.hist[b].Spawn? && Exec(ls).value.hist[b].id == i
    ensures exists c :: a < c < b && Exec(ls).value.hist[c].Exit? && Exec(ls).value.hist[c].id == i
  {
    var h := Exec(ls).value.hist;
    SpawnAt(ls, b);
    ExitBetween(h[..b], i, a);
    var c :| a < c < b && h[..b][c].Exit? && h[..b][c].id == i;
    assert h[c] == h[..b][c];
  }

  /** An instance removed by `forget` has no process, its target is Down for good, and it is never spawned. */
  lemma ForgetIsFinal(ls: seq<Label>, i: Id, a: nat)
    requires Exec(ls).Some? && a < |Exec(ls).value.hist| && Exec(ls).value.hist[a] == Remove(i)
    ensures var s := Exec(ls).value;
            && i in s.svc && s.svc[i].v.target.Down? && s.svc[i].v.pid == 0 && !Live(s.hist, i)
            && forall b :: a < b < |s.hist| ==> !(s.hist[b].Spawn? && s.hist[b].id == i)
  {
    var s := Exec(ls).value;
    RunInv(ls);
    assert Remove(i) in s.hist;
    PidShowsProcess(ls, i);
    forall b | a < b < |s.hist| ensures !(s.hist[b].Spawn? && s.hist[b].id == i) {
      StillIn(s.hist, a, b);
      if s.hist[b].Spawn? { SpawnAt(ls, b); }
    }
  }

  lemma StillIn(h: seq<Event>, a: nat, b: nat)
    requires a < b <= |h|
    ensures h[a] in h[..b]
  {
    assert h[..b][a] == h[a];
  }

  // ---------------------------------------------------------------- startup order

  /** When an instance is spawned, every name in its `after` list has been spawned earlier. */
  lemma DependenciesSpawnedFirst(ls: seq<Label>, b: nat, n: Name)
    requires Exec(ls).Some? && b < |Exec(ls).value.hist| && Exec(ls).value.hist[b].Spawn?
    requires var s := Exec(ls).value; s.hist[b].id in s.svc && n in s.svc[s.hist[b].id].v.config.after
    ensures exists a :: 0 <= a < b && Exec(ls).value.hist[a].Spawn? && Exec(ls).value.hist[a].name == n
  {
    var s := Exec(ls).value;
    SpawnAt(ls, b);
    var e := s.hist[b];
    var after := s.svc[e.id].v.config.after;
    var d :| 0 <= d < |after| && after[d] == n;
    assert DepOk(s.svc, s.hist[..b], after[d], e.deps[d]);
    var f :| f in s.hist[..b] && f.Spawn? && f.name == n;
    var a :| 0 <= a < b && s.hist[..b][a] == f;
    assert s.hist[a] == f;
  }

  /** A spawn whose last check saw dependency `d` as a one-shot instance comes after a process of that
      very instance was delivered exit code 0. */
  lemma OneShotGating(ls: seq<Label>, b: nat, d: nat)
    requires Exec(ls).Some? && b < |Exec(ls).value.hist| && Exec(ls).value.hist[b].Spawn?
    requires d < |Exec(ls).value.hist[b].deps|
    ensures var s := Exec(ls).value; var e := s.hist[b]; var j := e.deps[d];
            && e.id in s.svc && j in s.svc && |e.deps| == |s.svc[e.id].v.config.after|
              && s.svc[j].name == s.svc[e.id].v.config.after[d]
            && (s.svc[j].v.config.oneShot ==> exists a :: 0 <= a < b && s.hist[a] == Exit(j, ExitCode(0)))
  {
    var s := Exec(ls).value;
    SpawnAt(ls, b);
    var e := s.hist[b];
    assert DepOk(s.svc, s.hist[..b], s.svc[e.id].v.config.after[d], e.deps[d]);
    if s.svc[e.deps[d]].v.config.oneShot {
      var a :| 0 <= a < b && s.hist[..b][a] == Exit(e.deps[d], ExitCode(0));
      assert s.hist[a] == s.hist[..b][a];
    }
  }

  /** The index of the first spawn of `n`. */
  ghost function First(h: seq<Event>, n: Name): (k: nat)
    requires NameSpawned(h, n)
    ensures k < |h| && h[k].Spawn? && h[k].name == n && forall j :: 0 <= j < k ==> !(h[j].Spawn? && h[j].name == n)
  {
    if h[0].Spawn? && h[0].name == n then 0 else
    assert NameSpawned(h[1..], n) by {
      var e :| e in h && e.Spawn? && e.name == n;
      assert h == [h[0]] + h[1..];
      assert e in h[1..];
    }
    1 + First(h[1..], n)
  }

  /** `t` holds the `after` list every instance of a name was configured with. */
  ghost predicate FixedConfigs(s: Sys, t: Ord.AfterTable) {
    forall i :: i in s.svc ==> s.svc[i].name in t && t[s.svc[i].name] == s.svc[i].v.config.after
  }

  lemma FirstBefore(ls: seq<Label>, t: Ord.AfterTable, p: Name, c: Name)
    requires Exec(ls).Some? && FixedConfigs(Exec(ls).value, t)
    requires Ord.Lists(t, p, c) && NameSpawned(Exec(ls).value.hist, p)
    ensures NameSpawned(Exec(ls).value.hist, c) && First(Exec(ls).value.hist, c) < First(Exec(ls).value.hist, p)
  {
    var s := Exec(ls).value;
    var b := First(s.hist, p);
    SpawnAt(ls, b);
    DependenciesSpawnedFirst(ls, b, c);
    var a :| 0 <= a < b && s.hist[a].Spawn? && s.hist[a].name == c;
    assert s.hist[a] in s.hist;
  }

  /** With fixed configurations the first spawns linearly extend `after`: down any chain of `after`
      entries from a spawned name, every name was spawned, each strictly before the one that lists it. */
  lemma {:induction false} StartupFollowsChains(ls: seq<Label>, t: Ord.AfterTable, path: seq<Name>)
    requires Exec(ls).Some? && FixedConfigs(Exec(ls).value, t)
    requires Paths.IsPath(t, path) && NameSpawned(Exec(ls).value.hist, path[0])
    ensures forall k :: 0 <= k < |path| ==> NameSpawned(Exec(ls).value.hist, path[k])
    ensures forall j, k :: 0 <= j < k < |path| ==>
        First(Exec(ls).value.hist, path[k]) < First(Exec(ls).value.hist, path[j])
    decreases |path|
  {
    hide Exec;
    if |path| > 1 {
      var h := Exec(ls).value.hist;
      var rest := path[1..];
      assert Ord.Lists(t, path[0], path[1]);
      FirstBefore(ls, t, path[0], path[1]);
      assert Paths.IsPath(t, rest) by {
        forall i | 0 <= i < |rest| - 1
          ensures Ord.Lists(t, rest[i], rest[i + 1])
        {
          assert Ord.Lists(t, path[i + 1], path[i + 2]);
        }
      }
      StartupFollowsChains(ls, t, rest);
      forall k | 0 < k < |path| ensures NameSpawned(h, path[k]) && First(h, path[k]) <= First(h, path[1]) {
        assert path[k] == rest[k - 1];
        assert k > 1 ==> First(h, rest[k - 1]) < First(h, rest[0]);
      }
      forall j, k | 0 <= j < k < |path| ensures First(h, path[k]) < First(h, path[j]) {
        if j > 0 { assert First(h, rest[k - 1]) < First(h, rest[j - 1]); }
      }
    }
  }

  /** A service whose chain of dependencies enters a cycle (itself included), or reaches a name that was
      never monitored, is never spawned. */
  lemma NeverSpawned(ls: seq<Label>, t: Ord.AfterTable, path: seq<Name>)
    requires Exec(ls).Some? && FixedConfigs(Exec(ls).value, t) && Paths.IsPath(t, path)
    requires !NoDup(path) || forall i :: i in Exec(ls).value.svc ==> Exec(ls).value.svc[i].name != path[|path| - 1]
    ensures !NameSpawned(Exec(ls).value.hist, path[0])
  {
    var s := Exec(ls).value;
    if NameSpawned(s.hist, path[0]) {
      StartupFollowsChains(ls, t, path);
      SpawnAt(ls, First(s.hist, path[|path| - 1]));
    }
  }
}
