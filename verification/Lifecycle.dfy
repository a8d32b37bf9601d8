/** `LifecycleManager` as an object over the service table: the locked sections of its calls, in place,
    each shown to be the step the watcher protocol takes. */
module Lifecycle {
  import opened Basics
  import opened Service
  import opened Watch
  import Ord
  import Paths
  import Shutdown
  import ShutdownOrder
  import KillTree

  datatype Error =
    | ShuttingDown
    | UnknownService(name: string)
    | AlreadyMonitored(name: string)
    | ServiceIsUp(name: string)
    | ServiceIsDown(name: string)

  datatype Result<+T> = Ok(value: T) | Err(error: Error)

  /** What the table part of a `monitor` step does. */
  ghost predicate Inserted(s: Sys, s': Sys, n: Name, c: Config, i: Id) {
    && s'.flag == s.flag && i !in s.svc
    && (n in s.table ==> s'.table == s.table && s'.svc == s.svc)
    && (n !in s.table ==> s'.table == s.table[n := i] && s'.svc == s.svc[i := Inst(n, New(c))])
  }

  lemma InsertEffect(s: Sys, n: Name, c: Config, i: Id, w: Wid)
    requires CanRequest(s, MonitorInsert(n, c, i, w))
    ensures Inserted(s, DoRequest(s, MonitorInsert(n, c, i, w)), n, c, i)
  {
  }

  class LifecycleManager {
    var services: map<string, ZInitService>
    var shutdown: bool

    constructor ()
      ensures Valid() && services == map[] && !shutdown
    {
      services, shutdown := map[], false;
    }

    function Objects(): set<object>
      reads this
    {
      (set n | n in services :: services[n] as object) + (set n | n in services :: services[n].state as object)
    }

    /** Names do not share instances, nor instances their state cells. */
    ghost predicate Valid()
      reads this
    {
      && this !in Objects()
      && forall n, m :: n in services && m in services && n != m ==>
        services[n] != services[m] && services[n].state != services[m].state
    }

    /** The table part of a state of the step system describes this manager. */
    ghost predicate Represents(s: Sys)
      reads this, Objects()
    {
      && s.table.Keys == services.Keys
      && s.flag == shutdown
      && (forall n :: n in services ==> s.table[n] in s.svc && s.svc[s.table[n]] == Inst(n, services[n].View()))
    }

    /** The objects of one name. */
    function Cell(n: string): set<object>
      reads this
    {
      if n in services then {services[n], services[n].state} else {}
    }

    lemma Separate(n: string, m: string)
      requires Valid() && n != m && m in services
      ensures services[m] !in Cell(n) && services[m].state !in Cell(n)
    {
      if n in services {
        assert services[n] as object in Objects();
      }
    }

    /** The table part of `monitor`; the watcher is spawned on the instance returned. */
    method Monitor(name: string, service: Config) returns (r: Result<ZInitService>)
      requires Valid()
      modifies this`services
      ensures Valid() && shutdown == old(shutdown)
      ensures old(shutdown) ==> r == Err(ShuttingDown)
      ensures !old(shutdown) && name in old(services) ==> r == Err(AlreadyMonitored(name))
      ensures old(shutdown) || name in old(services) ==> services == old(services)
      ensures !old(shutdown) && name !in old(services) ==>
                && r.Ok? && services == old(services)[name := r.value] && fresh(r.value)
                && r.value.View() == Svc(service, Up, false, 0, Unknown)
      ensures forall s: Sys, i: Id, w: Wid ::
                old(Represents(s)) && !s.flag && CanRequest(s, MonitorInsert(name, service, i, w)) ==>
                  Represents(DoRequest(s, MonitorInsert(name, service, i, w)))
    {
      forall s: Sys, i: Id, w: Wid | CanRequest(s, MonitorInsert(name, service, i, w))
        ensures Inserted(s, DoRequest(s, MonitorInsert(name, service, i, w)), name, service, i)
      {
        InsertEffect(s, name, service, i, w);
      }
      hide DoRequest, CanRequest;
      if shutdown { return Err(ShuttingDown); }
      if name in services { return Err(AlreadyMonitored(name)); }
      var instance := new ZInitService(service);
      services := services[name := instance];
      r := Ok(instance);
    }

    /** `set_service_state`: by name, under the table and the service lock. */
    method SetServiceState(name: string, state: Option<State>, target: Option<Target>)
      requires Valid()
      modifies Cell(name)
      ensures name in services ==>
                services[name].View() == old(services[name].View()).(
                  state := if state.Some? then state.value else old(services[name].View()).state,
                  target := if target.Some? then target.value else old(services[name].View()).target)
      ensures forall s: Sys, c: Cause :: old(Represents(s)) && state.Some? && target.None? ==>
          Represents(SetStateByName(s, name, state.value, c))
      ensures forall s: Sys :: old(Represents(s)) && state.None? && target.Some? ==>
          Represents(Retarget(s, name, target.value))
    {
      forall m | m != name && m in services
        ensures services[m] !in Cell(name) && services[m].state !in Cell(name)
      {
        Separate(name, m);
      }
      if name !in services { return; }
      var service := services[name];
      if state.Some? { service.ForceSetState(state.value); }
      if target.Some? { service.SetTarget(target.value); }
    }

    /** The locked part of `stop`: the pid to signal, 0 for none. */
    method Stop(name: string) returns (r: Result<Pid>)
      requires Valid()
      modifies Cell(name)
      ensures r == if name in services then Ok(old(services[name].pid)) else Err(UnknownService(name))
      ensures name in services ==> services[name].View() == old(services[name].View()).(target := Down)
      ensures forall s: Sys :: old(Represents(s)) ==> Represents(Retarget(s, name, Down))
    {
      forall m | m != name && m in services
        ensures services[m] !in Cell(name) && services[m].state !in Cell(name)
      {
        Separate(name, m);
      }
      if name !in services { return Err(UnknownService(name)); }
      var service := services[name];
      service.SetTarget(Down);
      r := Ok(service.pid);
    }

    /** `start` up to the watcher it spawns. */
    method Start(name: string) returns (r: Result<ZInitService>)
      requires Valid()
      modifies Cell(name)
      ensures r == if shutdown then Err(ShuttingDown)
                   else if name in services then Ok(services[name]) else Err(UnknownService(name))
      ensures name in services ==>
                services[name].View() ==
                  if shutdown then old(services[name].View()) else old(services[name].View()).(target := Up)
      ensures forall s: Sys :: old(Represents(s)) && !shutdown ==> Represents(Retarget(s, name, Up))
    {
      if shutdown { return Err(ShuttingDown); }
      SetServiceState(name, None, Some(Up));
      if name !in services { return Err(UnknownService(name)); }
      r := Ok(services[name]);
    }

    /** `forget` refuses a service that is Up or has a pid. */
    method Forget(name: string) returns (r: Result<()>)
      requires Valid()
      modifies this`services
      ensures Valid()
      ensures r == if name !in old(services) then Err(UnknownService(name))
                   else if old(services[name].target.Down? && services[name].pid == 0) then Ok(())
                   else Err(ServiceIsUp(name))
      ensures services == if r.Ok? then old(services) - {name} else old(services)
      ensures forall s: Sys :: old(Represents(s)) ==> Represents(DoRequest(s, Watch.Forget(name)))
    {
      if name !in services { return Err(UnknownService(name)); }
      var service := services[name];
      if service.target.Up? || service.pid != 0 { return Err(ServiceIsUp(name)); }
      services := services - {name};
      r := Ok(());
    }

    /** `kill`: the pid that gets the signal. */
    method Kill(name: string) returns (r: Result<Pid>)
      ensures r == if name !in services then Err(UnknownService(name))
                   else if services[name].pid == 0 then Err(ServiceIsDown(name)) else Ok(services[name].pid)
      ensures forall s: Sys :: Represents(s) ==>
          (r.Ok? <==> PidByName(s, name) != 0) && (r.Ok? ==> r.value == PidByName(s, name))
    {
      if name !in services { return Err(UnknownService(name)); }
      if services[name].pid == 0 { return Err(ServiceIsDown(name)); }
      r := Ok(services[name].pid);
    }

    /** `can_schedule`, run without interruption: every dependency is in the table, and Running without being
        a one-shot or in Success. */
    method CanSchedule(after: seq<string>) returns (can: bool)
      ensures can <==> forall k :: 0 <= k < |after| ==>
                && after[k] in services
                && var v := services[after[k]].View();
                   (v.state == Running && !v.config.oneShot) || v.state == Success
      ensures forall s: Sys :: Represents(s) ==>
          (can <==> forall k :: 0 <= k < |after| ==> Satisfied(s.table, s.svc, after[k]))
    {
      can := true;
      for k := 0 to |after|
        invariant can && forall j :: 0 <= j < k ==>
                    && after[j] in services
                    && var v := services[after[j]].View();
                       (v.state == Running && !v.config.oneShot) || v.state == Success
      {
        var dep := after[k];
        if dep in services {
          var ps := services[dep];
          can := match ps.state.v
            case Running => !ps.service.oneShot
            case Success => true
            case _ => false;
        } else {
          can := false;
        }
        if !can { break; }
      }
    }

    /** What `service_dependency_order` reads. */
    function AfterTable(): Ord.AfterTable
      reads this
    {
      map n | n in services :: services[n].service.after
    }

    /** `power`'s first pass: the services to kill. */
    method ActiveServices() returns (active: set<string>)
      ensures active == set n | n in services
          && (services[n].View().state.Running? || services[n].View().state.Spawned?)
    {
      active := {};
      var todo := services.Keys;
      while todo != {}
        invariant todo <= services.Keys
        invariant active ==
                  set n | n in services && n !in todo
                    && (services[n].View().state.Running? || services[n].View().state.Spawned?)
      {
        var name :| name in todo;
        todo := todo - {name};
        if services[name].state.v.IsActive() { active := active + {name}; }
      }
    }

    /** `power`, up to the reboot: exactly the active services that the dependencies let through get a
        kill task, each after all the services that list it came out of the death channel. */
    method Power() returns (received: seq<string>, killed: seq<string>, exited: bool)
      requires Ord.WellNamed(AfterTable())
      modifies this`shutdown
      ensures shutdown
      ensures NoDup(received)
      ensures forall k, p :: 0 <= k < |received| && Ord.Lists(AfterTable(), p, received[k]) ==> p in received[..k]
      ensures NoDup(killed)
      ensures forall c :: c in killed ==>
          c in services && (services[c].View().state.Running? || services[c].View().state.Spawned?)
      ensures forall c :: c in received && c != Ord.DUMMY_ROOT ==>
                (c in killed <==>
                  c in services && (services[c].View().state.Running? || services[c].View().state.Spawned?))
      ensures !exited ==> Ord.Elems(received) == ShutdownOrder.Releasable(AfterTable())
      ensures exited <==> |ShutdownOrder.Releasable(AfterTable())| > |services|
      ensures Paths.AllDefined(AfterTable()) ==> (exited <==> Paths.Acyclic(AfterTable()))
      ensures Paths.AllDefined(AfterTable()) ==>
                forall c :: c in killed <==>
                  c in services && (services[c].View().state.Running? || services[c].View().state.Spawned?)
                    && !Paths.BehindCycle(AfterTable(), c)
    {
      assert Ord.DUMMY_ROOT !in AfterTable() && AfterTable().Keys == services.Keys;
      hide Ord.WellNamed, Ord.IsDag, NoDup, Ord.Lists, ShutdownOrder.Releasable, Paths.AllDefined, Paths.Acyclic,
        Paths.BehindCycle, Shutdown.Exec;
      shutdown := true;
      var t := AfterTable();
      var active := ActiveServices();
      var dag := Ord.ServiceDependencyOrder(t);
      ghost var ls;
      received, killed, exited, ls := KillTree.KillProcessTree(t, dag, active);
      assert |t| == |services| by { assert |t.Keys| == |services.Keys|; }
    }
  }

  // ---------------------------------------------------------------- the watcher's locked sections

  /** The gate of `watch_service`: it opens for an instance that is Up and not scheduled, and marks it. */
  method EntryGate(input: ZInitService) returns (go: bool)
    modifies input`scheduled
    ensures go <==> old(input.target.Up? && !input.scheduled)
    ensures input.View() == old(input.View()).(scheduled := go || old(input.scheduled))
    ensures go == old(GateOpens(input.View()))
    ensures go ==> input.View() == Scheduled(old(input.View()))
  {
    if input.target.Down? { return false; }
    if input.scheduled { return false; }
    input.scheduled := true;
    go := true;
  }

  /** The section around the spawn; `child` is what the process manager returned. A service that is Down is
      left alone, a failed spawn leaves it in Failure and nothing else changed, a successful one records the
      pid and leaves it Spawned, or Running if it is a one-shot; and that is the step. */
  method SpawnSection(input: ZInitService, child: Option<Pid>, i: Id, name: Name, seen: seq<Id>) returns (next: Pc)
    modifies input, input.state
    ensures old(input.target.Down?) ==> input.View() == old(input.View()) && next == Releasing
    ensures old(input.target.Up?) && child.None? ==>
              input.View() == old(input.View()).(state := Failure) && next == Releasing
    ensures old(input.target.Up?) && child.Some? ==>
              && input.View() == old(input.View()).(
                   pid := child.value, state := if input.service.oneShot then Running else State.Spawned)
              && next == Waiting(child.value, None)
    ensures input.state.InStep() || (old(input.target.Down?) && input.state.v == old(input.state.v))
    ensures input.View() == SpawnEffect(i, name, old(input.View()), seen, child).v
    ensures next == SpawnEffect(i, name, old(input.View()), seen, child).pc
  {
    if input.target.Down? { return Releasing; }
    if child.None? {
      input.ForceSetState(Failure);
      return Releasing;
    }
    input.ForceSetState(State.Spawned);
    input.SetPid(child.value);
    if input.service.oneShot { input.ForceSetState(Running); }
    next := Waiting(child.value, None);
  }

  /** The section after `child.wait()`: the pid is cleared and the status recorded, and nothing else changes. */
  method ExitSection(input: ZInitService, status: WaitStatus) returns (next: Pc)
    modifies input, input.state
    ensures input.View() == old(input.View()).(
              pid := 0, state := if status == ExitCode(0) then Success else Error(status))
    ensures input.state.InStep()
    ensures input.View() == Finished(old(input.View()), status)
    ensures next == if input.service.oneShot then Owing else Sleeping
  {
    input.ClearPid();
    input.ForceSetState(if Succeeded(status) then Success else Error(status));
    next := if input.service.oneShot then Owing else Sleeping;
  }

  method Release(input: ZInitService)
    modifies input`scheduled
    ensures input.View() == old(input.View()).(scheduled := false) && input.View() == Released(old(input.View()))
  {
    input.scheduled := false;
  }
}
