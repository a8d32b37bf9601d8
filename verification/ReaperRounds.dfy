/** What one round of the reaper, and one `run`, get done by their own steps. */
module ReaperRounds {
  import opened Basics
  import opened Service
  import opened Reaper
  import opened ReaperRuns

  lemma Go(ls: seq<Label>, more: seq<Label>, s: Sys, l: Label) returns (more': seq<Label>, s': Sys)
    requires Exec(ls + more) == Some(s) && Enabled(s, l)
    ensures Exec(ls + more') == Some(s') && s' == Apply(s, l) && more' == more + [l]
  {
    more', s' := more + [l], Apply(s, l);
    assert ls + more' == (ls + more) + [l];
    assert (ls + more')[..|ls + more|] == ls + more;
  }

  predicate OfReaper(l: Label) {
    l.Wake? || l.TakeLock? || l.Reap? || l.NoMore? || l.Dispatch? || l.Finish?
  }

  ghost predicate ByReaperAlone(more: seq<Label>) {
    forall k :: 0 <= k < |more| ==> OfReaper(more[k])
  }

  /** What a round leaves alone: the living, and what each child died with. */
  ghost predicate Rounded(s: Sys, s': Sys) {
    && s'.fate == s.fate && s'.used == s.used
    && (forall p :: p in s.procs && s.procs[p].status.None? ==> p in s'.procs && s'.procs[p] == s.procs[p])
    && (forall p :: p in s'.procs ==> p in s.procs && s'.procs[p] == s.procs[p])
  }

  lemma {:induction false} ReapAll(ls: seq<Label>, soFar: seq<Label>, s: Sys) returns (more: seq<Label>, s': Sys)
    requires Exec(ls + soFar) == Some(s) && s.pc.Collecting? && ByReaperAlone(soFar)
    ensures Exec(ls + more) == Some(s') && ByReaperAlone(more) && Rounded(s, s')
    ensures s'.pc.Dispatching? && s'.lock == s.lock && s'.sigchld == s.sigchld && forall p :: !Zombie(s'.procs, p)
    decreases |s.procs|
  {
    hide Exec;
    if p :| Zombie(s.procs, p) {
      var a, m := Go(ls, soFar, s, Reap(p));
      SmallerMap(s.procs, s.procs, p);
      more, s' := ReapAll(ls, a, m);
    } else {
      more, s' := Go(ls, soFar, s, NoMore);
    }
  }

  lemma {:induction false} SendAll(ls: seq<Label>, soFar: seq<Label>, s: Sys) returns (more: seq<Label>, s': Sys)
    requires Exec(ls + soFar) == Some(s) && s.pc.Dispatching? && ByReaperAlone(soFar)
    ensures Exec(ls + more) == Some(s') && ByReaperAlone(more)
    ensures s' == s.(pc := Idle, lock := Free, table := s'.table, chans := s'.chans)
    decreases |s.pc.rest|
  {
    hide Exec;
    if s.pc.rest == [] {
      more, s' := Go(ls, soFar, s, Finish);
    } else {
      var a, m := Go(ls, soFar, s, Dispatch);
      more, s' := SendAll(ls, a, m);
    }
  }

  /** A pending SIGCHLD and a free lock: by its own steps the reaper gets back to rest with the signal taken
      and the lock free, every zombie reaped, no living process touched, and every child that has died sent
      the status it died with. */
  lemma RoundCompletes(ls: seq<Label>) returns (more: seq<Label>)
    requires Exec(ls).Some? && Exec(ls).value.pc.Idle? && Exec(ls).value.sigchld && Exec(ls).value.lock.Free?
    ensures Exec(ls + more).Some? && ByReaperAlone(more)
    ensures var s := Exec(ls).value; var s' := Exec(ls + more).value;
            && s'.pc.Idle? && s'.lock.Free? && !s'.sigchld
            && s'.procs == (map p | p in s.procs && s.procs[p].status.None? :: s.procs[p])
            && s'.fate == s.fate && forall c :: c in s.fate ==> c in s'.chans && s'.chans[c] == Sent(s.fate[c])
  {
    var s := Exec(ls).value;
    assert ls + [] == ls;
    hide Exec;
    var m, s';
    more, m := Go(ls, [], s, Wake);
    more, m := Go(ls, more, m, TakeLock);
    more, m := ReapAll(ls, more, m);
    assert forall p :: p in m.procs ==> !Zombie(m.procs, p);
    more, s' := SendAll(ls, more, m);
    DeathsAreDelivered(ls + more);
  }

  /** `run`: by its three steps the child is alive, registered under its pid, waiting for its status, and the
      lock free again. */
  lemma RunCompletes(ls: seq<Label>, p: Pid, c: Cid)
    requires Exec(ls).Some? && Exec(ls).value.lock.Free?
    requires p != 0 && p !in Exec(ls).value.procs && c !in Exec(ls).value.used
    ensures var s := Exec(ls).value;
            Exec(ls + [RunLock, RunSpawn(p, c), RunInsert]) ==
              Some(s.(procs := s.procs[p := Proc(Child(c), None)], table := s.table[p := c],
                      chans := s.chans[c := Pending], used := s.used + {c}))
  {
    var s := Exec(ls).value;
    assert ls + [] == ls;
    hide Exec;
    var more, m := Go(ls, [], s, RunLock);
    more, m := Go(ls, more, m, RunSpawn(p, c));
    TableKeysAreUnreaped(ls + more);
    more, m := Go(ls, more, m, RunInsert);
    assert more == [RunLock, RunSpawn(p, c), RunInsert];
  }

  /** At rest, the reaper starts exactly when a SIGCHLD is pending. */
  lemma RestsUntilDeath(s: Sys, l: Label)
    requires s.pc.Idle? && OfReaper(l)
    ensures Enabled(s, l) <==> l.Wake? && s.sigchld
  {
  }

  /** From spawn to status: a child spawned while the reaper is at rest dies with any status, and after one
      round that status is what it is sent, and the kernel has forgotten its pid. */
  lemma ChildIsDelivered(ls: seq<Label>, p: Pid, c: Cid, st: WaitStatus) returns (more: seq<Label>)
    requires Exec(ls).Some? && Exec(ls).value.lock.Free? && Exec(ls).value.pc.Idle?
    requires p != 0 && p !in Exec(ls).value.procs && c !in Exec(ls).value.used
    ensures Exec(ls + more).Some? && |more| >= 4
    ensures more[..4] == [RunLock, RunSpawn(p, c), RunInsert, Die(p, st)] && ByReaperAlone(more[4..])
    ensures var s' := Exec(ls + more).value;
            c in s'.chans && s'.chans[c] == Sent(st) && p !in s'.procs && s'.pc.Idle? && s'.lock.Free?
  {
    var s := Exec(ls).value;
    RunCompletes(ls, p, c);
    var a := [RunLock, RunSpawn(p, c), RunInsert];
    hide Exec;
    var b, m := Go(ls, a, Exec(ls + a).value, Die(p, st));
    assert c in m.fate && m.fate[c] == st && m.procs[p].status.Some?;
    hide Apply, Enabled;
    var round := RoundCompletes(ls + b);
    more := b + round;
    Joined(ls, b, round);
  }

  lemma Joined(ls: seq<Label>, b: seq<Label>, round: seq<Label>)
    ensures (ls + b) + round == ls + (b + round)
    ensures (b + round)[..|b|] == b && (b + round)[|b|..] == round
  {
  }
}
