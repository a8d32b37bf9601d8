/** What one kill task and one API call do by their own steps, with nothing between them. */
module Calls {
  import opened Basics
  import opened Service
  import opened Watch
  import opened Supervision
  import Trace
  import opened WatchRuns
  import opened Limits

  // ---------------------------------------------------------------- kill tasks

  /** The state with task `k` at `pc`. */
  function Task(s: Sys, k: Kid, t: Kill): Sys {
    s.(kills := s.kills[k := t])
  }

  lemma KillTurn(ls: seq<Label>, soFar: seq<Label>, s: Sys, k: Kid, d: Shutting, pc: KillPc) returns (more: seq<Label>)
    requires Exec(ls + soFar) == Some(s) && CanShut(s, k, d)
    requires d.KillWaited? || d.KillStatus? || d.KillPost?
    requires KillTo(s, k, d) == s.kills[k].(pc := pc)
    ensures Exec(ls + more) == Some(Task(s, k, s.kills[k].(pc := pc))) && more == soFar + [Shuts(k, d)]
  {
    hide Exec;
    var s';
    more, s' := Go(ls, soFar, s, Shuts(k, d));
  }

  /** What a kill task has done to a service it found in the table: its target is Down, and the pid the
      instance had, if any, was sent SIGKILL. */
  function Killed(s: Sys, k: Kid, n: Name, i: Id, pc: KillPc): Sys
    requires i in s.svc
  {
    var v := s.svc[i].v;
    s.(svc := s.svc[i := Inst(s.svc[i].name, v.(target := Down))],
       kills := s.kills[k := Kill(n, pc, Some(i), |s.hist|)],
       hist := s.hist + [Lower(i, v.pid)] + if pc.Posted? && v.pid != 0 then [Sigkill(i, v.pid)] else [])
  }

  lemma StopsIt(ls: seq<Label>, s: Sys, k: Kid, n: Name) returns (more: seq<Label>)
    requires Exec(ls) == Some(s) && k in s.kills && s.kills[k].pc.ToStop? && s.kills[k].name == n && Known(s, n)
    ensures Exec(ls + more) == Some(Killed(s, k, n, s.table[n], ToWait)) && more == [Shuts(k, KillStop)]
  {
    assert ls + [] == ls;
    hide Exec;
    var s';
    more, s' := Go(ls, [], s, Shuts(k, KillStop));
    var i := s.table[n];
    assert s.hist + [Lower(i, s.svc[i].v.pid)] + [] == s.hist + [Lower(i, s.svc[i].v.pid)];
  }

  lemma Signals(ls: seq<Label>, soFar: seq<Label>, s: Sys, k: Kid, n: Name, i: Id) returns (more: seq<Label>)
    requires i in s.svc && n in s.table && s.table[n] == i && s.svc[i].v.pid != 0
    requires Exec(ls + soFar) == Some(Killed(s, k, n, i, ToKill))
    ensures Exec(ls + more) == Some(Killed(s, k, n, i, Posted))
    ensures more == soFar + [Shuts(k, KillSignal), Shuts(k, KillPost)]
  {
    hide Exec;
    var m, h := Killed(s, k, n, i, ToKill), s.hist + [Lower(i, s.svc[i].v.pid)];
    assert m.hist == h && PidByName(m, n) == s.svc[i].v.pid;
    var s';
    more, s' := Go(ls, soFar, m, Shuts(k, KillSignal));
    var t := s.kills[k := Kill(n, ToPost, Some(i), |s.hist|)];
    assert s'.hist == h + [Sigkill(i, s.svc[i].v.pid)] && s'.kills == t;
    more, s' := Go(ls, more, s', Shuts(k, KillPost));
    assert t[k := Kill(n, Posted, Some(i), |s.hist|)] == s.kills[k := Kill(n, Posted, Some(i), |s.hist|)];
    assert more == soFar + [Shuts(k, KillSignal), Shuts(k, KillPost)];
  }

  /** A kill task for a service in the table: stop, wait, look at the pid, send SIGKILL exactly if there is
      one, post. At the end the target is Down, and nothing else of the services has changed. */
  lemma KillAlone(ls: seq<Label>, k: Kid) returns (more: seq<Label>)
    requires Exec(ls).Some? && k in Exec(ls).value.kills && Exec(ls).value.kills[k].pc.ToStop?
    requires Known(Exec(ls).value, Exec(ls).value.kills[k].name)
    ensures var s := Exec(ls).value; var n := s.kills[k].name; var i := s.table[n];
            && Exec(ls + more) == Some(Killed(s, k, n, i, Posted))
            && more == [Shuts(k, KillStop), Shuts(k, KillWaited), Shuts(k, KillStatus)]
                       + (if s.svc[i].v.pid != 0 then [Shuts(k, KillSignal)] else []) + [Shuts(k, KillPost)]
  {
    var s := Exec(ls).value;
    var n := s.kills[k].name;
    var i := s.table[n];
    hide Exec;
    var a := StopsIt(ls, s, k, n);
    var b := KillTurn(ls, a, Killed(s, k, n, i, ToWait), k, KillWaited, ToCheck);
    TaskMoves(s, k, n, i, ToWait, ToCheck);
    if s.svc[i].v.pid != 0 {
      var c := KillTurn(ls, b, Killed(s, k, n, i, ToCheck), k, KillStatus, ToKill);
      TaskMoves(s, k, n, i, ToCheck, ToKill);
      more := Signals(ls, c, s, k, n, i);
    } else {
      var c := KillTurn(ls, b, Killed(s, k, n, i, ToCheck), k, KillStatus, ToPost);
      TaskMoves(s, k, n, i, ToCheck, ToPost);
      more := KillTurn(ls, c, Killed(s, k, n, i, ToPost), k, KillPost, Posted);
      TaskMoves(s, k, n, i, ToPost, Posted);
    }
  }

  lemma TaskMoves(s: Sys, k: Kid, n: Name, i: Id, pc: KillPc, pc': KillPc)
    requires i in s.svc && !pc.Posted? && (pc'.Posted? ==> s.svc[i].v.pid == 0)
    ensures Task(Killed(s, k, n, i, pc), k, Kill(n, pc', Some(i), |s.hist|)) == Killed(s, k, n, i, pc')
    ensures Killed(s, k, n, i, pc).kills[k] == Kill(n, pc, Some(i), |s.hist|)
  {
    assert s.kills[k := Kill(n, pc, Some(i), |s.hist|)][k := Kill(n, pc', Some(i), |s.hist|)]
        == s.kills[k := Kill(n, pc', Some(i), |s.hist|)];
  }

  /** A kill task that finds no service of the name does not wait, signals nobody and posts. */
  lemma KillNobody(ls: seq<Label>, k: Kid) returns (more: seq<Label>)
    requires Exec(ls).Some? && k in Exec(ls).value.kills && Exec(ls).value.kills[k].pc.ToStop?
    requires Exec(ls).value.kills[k].name !in Exec(ls).value.table
    ensures var s := Exec(ls).value;
            && Exec(ls + more) == Some(s.(kills := s.kills[k := Kill(s.kills[k].name, Posted, None, 0)]))
            && more == [Shuts(k, KillStop), Shuts(k, KillStatus), Shuts(k, KillPost)]
  {
    var s := Exec(ls).value;
    assert ls + [] == ls;
    hide Exec;
    var n := s.kills[k].name;
    var m;
    more, m := Go(ls, [], s, Shuts(k, KillStop));
    assert m == Task(s, k, Kill(n, ToCheck, None, 0));
    more := KillTurn(ls, more, m, k, KillStatus, ToPost);
    TaskTwice(s, k, Kill(n, ToCheck, None, 0), Kill(n, ToPost, None, 0));
    more := KillTurn(ls, more, Task(s, k, Kill(n, ToPost, None, 0)), k, KillPost, Posted);
    TaskTwice(s, k, Kill(n, ToPost, None, 0), Kill(n, Posted, None, 0));
  }

  lemma TaskTwice(s: Sys, k: Kid, t: Kill, t': Kill)
    ensures Task(Task(s, k, t), k, t') == Task(s, k, t')
  {
    assert s.kills[k := t][k := t'] == s.kills[k := t'];
  }

  // ---------------------------------------------------------------- calls

  /** `monitor` of a new name outside shutdown: one new instance, Up and unscheduled in state Unknown with the
      configuration given, in the table under its name, and one watcher of it before the gate. */
  lemma MonitorCall(ls: seq<Label>, n: Name, c: Config, i: Id, w: Wid)
    requires Exec(ls).Some? && i !in Exec(ls).value.svc && w !in Exec(ls).value.ws && !Exec(ls).value.flag
    ensures var s := Exec(ls).value;
            Exec(ls + [Api(MonitorFlag(n, c)), Api(MonitorInsert(n, c, i, w))]) ==
              Some(if n in s.table then s else
                   s.(table := s.table[n := i], svc := s.svc[i := Inst(n, Svc(c, Up, false, 0, Unknown))],
                      ws := s.ws[w := Watcher(i, Entry, 0)]))
  {
    var s := Exec(ls).value;
    assert ls + [] == ls;
    hide Exec;
    var more, m := Go(ls, [], s, Api(MonitorFlag(n, c)));
    assert m.monitors - multiset{(n, c)} == s.monitors;
    more, m := Go(ls, more, m, Api(MonitorInsert(n, c, i, w)));
    assert more == [Api(MonitorFlag(n, c)), Api(MonitorInsert(n, c, i, w))];
  }

  /** `s` with the target of the named instance Up, if there is one. */
  function Raised(s: Sys, n: Name): Sys {
    if !Known(s, n) then s else
    var i := s.table[n];
    s.(svc := s.svc[i := Inst(s.svc[i].name, s.svc[i].v.(target := Up))], hist := s.hist + [Raise(i)])
  }

  lemma RaiseEffect(s: Sys, n: Name)
    ensures DoRequest(s.(starts := s.starts + multiset{n}), StartTarget(n)) ==
              Raised(s, n).(started := s.started + multiset{n})
  {
    assert s.starts + multiset{n} - multiset{n} == s.starts;
  }

  lemma RaisesIt(ls: seq<Label>, s: Sys, n: Name) returns (more: seq<Label>)
    requires Exec(ls) == Some(s) && !s.flag
    ensures Exec(ls + more) == Some(Raised(s, n).(started := s.started + multiset{n}))
    ensures more == [Api(StartFlag(n)), Api(StartTarget(n))]
  {
    assert ls + [] == ls;
    var m := s.(starts := s.starts + multiset{n});
    RaiseEffect(s, n);
    hide Exec, Raised;
    var m';
    more, m' := Go(ls, [], s, Api(StartFlag(n)));
    assert m' == m;
    hide DoRequest;
    more, m' := Go(ls, more, m, Api(StartTarget(n)));
  }

  /** `start` outside shutdown: the target of the named instance is Up and one more watcher of it stands
      before the gate; an unknown name changes nothing. */
  lemma StartCall(ls: seq<Label>, n: Name, w: Wid)
    requires Exec(ls).Some? && w !in Exec(ls).value.ws && !Exec(ls).value.flag
    ensures var s := Exec(ls).value;
            Exec(ls + [Api(StartFlag(n)), Api(StartTarget(n)), Api(StartWatch(n, w))]) ==
              Some(if !Known(s, n) then s else Raised(s, n).(ws := s.ws[w := Watcher(s.table[n], Entry, 0)]))
  {
    var s := Exec(ls).value;
    hide Exec;
    var a := RaisesIt(ls, s, n);
    var m := Raised(s, n).(started := s.started + multiset{n});
    assert m.started - multiset{n} == s.started;
    var more, s' := Go(ls, a, m, Api(StartWatch(n, w)));
    assert more == [Api(StartFlag(n)), Api(StartTarget(n)), Api(StartWatch(n, w))];
  }

  /** During shutdown neither call gets past its first step, and a call that got past it before still ends. */
  lemma NoCallsInShutdown(s: Sys, n: Name, c: Config)
    requires s.flag
    ensures !Enabled(s, Api(MonitorFlag(n, c))) && !Enabled(s, Api(StartFlag(n)))
  {
  }

  /** `stop` and `forget`: the first lowers the target and records the pid, the second then takes the instance
      out of the table exactly if it has no pid. */
  lemma StopThenForget(ls: seq<Label>, n: Name)
    requires Exec(ls).Some? && Known(Exec(ls).value, n)
    ensures var s := Exec(ls).value; var i := s.table[n]; var v := s.svc[i].v;
            var stopped := s.(svc := s.svc[i := Inst(s.svc[i].name, v.(target := Down))],
              hist := s.hist + [Lower(i, v.pid)]);
            && Exec(ls + [Api(Stop(n))]) == Some(stopped)
            && Exec(ls + [Api(Stop(n)), Api(Watch.Forget(n))]) ==
                 Some(if v.pid != 0 then stopped
                      else stopped.(table := s.table - {n}, hist := s.hist + [Lower(i, v.pid)] + [Remove(i)]))
  {
    var s := Exec(ls).value;
    assert ls + [] == ls;
    hide Exec;
    var more, m := Go(ls, [], s, Api(Stop(n)));
    assert more == [Api(Stop(n))];
    more, m := Go(ls, more, m, Api(Watch.Forget(n)));
    assert more == [Api(Stop(n)), Api(Watch.Forget(n))];
  }

  /** A service that is Up is not forgotten. */
  lemma UpIsKept(s: Sys, n: Name)
    requires Known(s, n) && s.svc[s.table[n]].v.target == Up
    ensures Apply(s, Api(Watch.Forget(n))) == s
  {
  }
}
