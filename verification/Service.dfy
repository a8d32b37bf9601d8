/** A service instance: src/zinit/state.rs, types.rs (`Watched`) and service.rs. */
module Service {

  type Pid = nat // 0 is "no process"

  datatype WaitStatus = ExitCode(code: int) | Signaled(sig: int)

  predicate Succeeded(st: WaitStatus) {
    st == ExitCode(0)
  }

  datatype Target = Up | Down

  datatype State = Unknown | Blocked | Spawned | Running | Success | Error(status: WaitStatus) | TestFailure | Failure
  {
    predicate IsActive() {
      Running? || Spawned?
    }

    predicate CanTransitionTo(to: State) {
      match (this, to)
      case (Unknown, _) => true
      case (Blocked, Spawned) => true
      case (Blocked, Failure) => true
      case (Spawned, Running) => true
      case (Spawned, TestFailure) => true
      case (Spawned, Error(_)) => true
      case (Spawned, Success) => true
      case (Running, Success) => true
      case (Running, Error(_)) => true
      case (_, Unknown) => true
      case (_, Blocked) => true
      case _ => false
    }
  }

  datatype Config = Config(after: seq<string>, oneShot: bool, hasTest: bool)

  /** The fields of `ZInitService` as a value. */
  datatype Svc = Svc(config: Config, target: Target, scheduled: bool, pid: Pid, state: State)

  // The effect of each lock-protected section on the instance it locks.

  function New(c: Config): Svc {
    Svc(c, Up, false, 0, Unknown)
  }

  predicate GateOpens(v: Svc) {
    v.target.Up? && !v.scheduled
  }

  function Scheduled(v: Svc): Svc {
    v.(scheduled := true)
  }

  /** The locked section around the spawn, when the spawn succeeded. */
  function SpawnedAs(v: Svc, pid: Pid): Svc {
    v.(state := if v.config.oneShot then Running else Spawned, pid := pid)
  }

  function SpawnFailed(v: Svc): Svc {
    v.(state := Failure)
  }

  /** The state the exit section forces for a delivered status. */
  function ExitState(st: WaitStatus): State {
    if Succeeded(st) then Success else Error(st)
  }

  function Finished(v: Svc, st: WaitStatus): Svc {
    v.(pid := 0, state := ExitState(st))
  }

  function Released(v: Svc): Svc {
    v.(scheduled := false)
  }

  /** What `can_schedule` asks of one dependency. */
  predicate Satisfies(v: Svc) {
    (v.state.Running? && !v.config.oneShot) || v.state.Success?
  }

  predicate Forgettable(v: Svc) {
    v.target.Down? && v.pid == 0
  }

  /** A value and the watch channel that publishes it. */
  class Watched<T(0)> {
    var v: T
    var published: T

    constructor (v: T)
      ensures this.v == v && InStep()
    {
      this.v, published := v, v;
    }

    ghost predicate InStep()
      reads this
    {
      v == published
    }

    method Set(v: T)
      modifies this
      ensures this.v == v && InStep()
    {
      this.v := v;
      published := v;
    }
  }

  class ZInitService {
    const service: Config
    const state: Watched<State>
    var pid: Pid
    var target: Target
    var scheduled: bool

    constructor (c: Config)
      ensures View() == New(c) && state.InStep() && fresh(state)
    {
      service := c;
      state := new Watched(Unknown);
      pid, target, scheduled := 0, Up, false;
    }

    function View(): Svc
      reads this, state
    {
      Svc(service, target, scheduled, pid, state.v)
    }

    method ForceSetState(st: State)
      modifies state
      ensures View() == old(View()).(state := st) && state.InStep()
    {
      state.Set(st);
    }

    method SetTarget(t: Target)
      modifies this`target
      ensures View() == old(View()).(target := t)
    {
      target := t;
    }

    method SetPid(p: Pid)
      modifies this`pid
      ensures View() == old(View()).(pid := p)
    {
      pid := p;
    }

    method ClearPid()
      modifies this`pid
      ensures View() == old(View()).(pid := 0)
    {
      pid := 0;
    }
  }
}
