/**
 * The guard decorators the charm wraps its event handlers in. A guard either calls the
 * handler unchanged, or skips it: the leader guard does nothing more, the other guards
 * defer the event and set the unit's status first. A handler is a function from the
 * unit's status and deferral flag to new ones and its result.
 */
module Validators {
  import opened Wrappers

  /** The unit statuses the guards set, and the others a handler may leave. */
  datatype Status =
    | ActiveStatus(message: string)
    | MaintenanceStatus(message: string)
    | WaitingStatus(message: string)
    | BlockedStatus(message: string)

  /** What a handler can see and change: the unit's status and whether the event was deferred. */
  datatype HookState = HookState(status: Status, deferred: bool)

  const ContainerWaitMessage: string := "Waiting to connect to container."
  const DatabaseWaitMessage: string := "Waiting for database creation"

  function MissingIntegrationMessage(integrationName: string): string
  {
    "Missing required integration " + integrationName
  }

  /**
   * One guard as evaluated for an event: whether its condition holds, and what it does
   * when it does not (`None`: return quietly; `Some(s)`: defer the event and set status `s`).
   */
  datatype Guard = Guard(pass: bool, onFail: Option<Status>)

  /** `leader_unit`. */
  function LeaderGuard(isLeader: bool): Guard
  {
    Guard(isLeader, None)
  }

  /** `validate_container_connectivity`. */
  function ContainerGuard(canConnect: bool): Guard
  {
    Guard(canConnect, Some(WaitingStatus(ContainerWaitMessage)))
  }

  /** `validate_integration_exists(integration_name)`: the relations of that name must not be empty. */
  function IntegrationGuard(integrationName: string, relationIds: seq<int>): Guard
  {
    Guard(|relationIds| > 0, Some(BlockedStatus(MissingIntegrationMessage(integrationName))))
  }

  /** `validate_database_resource`. */
  function DatabaseGuard(resourceCreated: bool): Guard
  {
    Guard(resourceCreated, Some(WaitingStatus(DatabaseWaitMessage)))
  }

  /** The state a failing guard leaves: unchanged, or deferred with its status. */
  function Skip(g: Guard, s: HookState): HookState
  {
    if g.onFail.None? then s else HookState(g.onFail.value, true)
  }

  /**
   * A handler wrapped in `guards`, outermost first: the first guard whose condition fails
   * skips everything inside it and the result is `None`; when all pass, the handler runs
   * on the state as it was.
   */
  function Run<R>(guards: seq<Guard>, s: HookState, handler: HookState -> (HookState, R)): (HookState, Option<R>)
  {
    if |guards| == 0 then (handler(s).0, Some(handler(s).1))
    else if guards[0].pass then Run(guards[1..], s, handler)
    else (Skip(guards[0], s), None)
  }

  /** The position of the first guard that fails. */
  function FirstFailing(guards: seq<Guard>): (r: Option<nat>)
    ensures r.None? <==> forall i :: 0 <= i < |guards| ==> guards[i].pass
    ensures r.Some? ==> r.value < |guards| && !guards[r.value].pass
    ensures r.Some? ==> forall i :: 0 <= i < r.value ==> guards[i].pass
  {
    if |guards| == 0 then None
    else if !guards[0].pass then Some(0)
    else
      match FirstFailing(guards[1..])
      case None =>
        assert forall i :: 1 <= i < |guards| ==> guards[i] == guards[1..][i - 1];
        None
      case Some(i) => Some(i + 1)
  }

  /**
   * A stack of guards calls the handler exactly when every condition holds and then
   * returns the handler's state and result unchanged; otherwise the result is `None`
   * and the state is what the first failing guard leaves, whatever the handler would
   * have done and whatever the inner guards say.
   */
  lemma {:induction false} RunOutcome<R>(guards: seq<Guard>, s: HookState, handler: HookState -> (HookState, R))
    ensures Run(guards, s, handler).1.Some? <==> forall i :: 0 <= i < |guards| ==> guards[i].pass
    ensures FirstFailing(guards).None? ==> Run(guards, s, handler) == (handler(s).0, Some(handler(s).1))
    ensures FirstFailing(guards).Some? ==> Run(guards, s, handler) == (Skip(guards[FirstFailing(guards).value], s), None)
  {
    if |guards| > 0 && guards[0].pass {
      RunOutcome(guards[1..], s, handler);
      assert forall i :: 1 <= i < |guards| ==> guards[i] == guards[1..][i - 1];
    }
  }

  /** A failing leader guard leaves the status and the deferral flag as they were. */
  lemma NonLeaderIsQuiet<R>(guards: seq<Guard>, s: HookState, handler: HookState -> (HookState, R))
    ensures Run([LeaderGuard(false)] + guards, s, handler) == (s, None)
  {
  }

  /** Every other guard, when it fails, defers the event and sets its own status. */
  lemma FailingGuardDefers<R>(g: Guard, guards: seq<Guard>, s: HookState, handler: HookState -> (HookState, R))
    requires !g.pass && g.onFail.Some?
    ensures Run([g] + guards, s, handler) == (HookState(g.onFail.value, true), None)
  {
  }

  /** The unit as the guards see it. */
  class Unit {
    var status: Status
    var deferred: bool

    constructor (status: Status)
      ensures this.status == status && !deferred
    {
      this.status := status;
      deferred := false;
    }

    function State(): HookState
      reads this
    {
      HookState(status, deferred)
    }

    /** Run `handler` on this unit and keep the state it returns. */
    method Call<R>(handler: HookState -> (HookState, R)) returns (r: R)
      modifies this
      ensures State() == handler(old(State())).0 && r == handler(old(State())).1
    {
      var outcome := handler(HookState(status, deferred));
      status, deferred := outcome.0.status, outcome.0.deferred;
      r := outcome.1;
    }

    /** `leader_unit`: on a non-leader unit return `None` without calling the handler. */
    method LeaderUnit<R>(isLeader: bool, handler: HookState -> (HookState, R)) returns (r: Option<R>)
      modifies this
      ensures (State(), r) == Run([LeaderGuard(isLeader)], old(State()), handler)
    {
      if !isLeader {
        return None;
      }
      var x := Call(handler);
      r := Some(x);
    }

    /** `validate_container_connectivity`: an unreachable container defers the event and waits. */
    method ValidateContainerConnectivity<R>(canConnect: bool, handler: HookState -> (HookState, R)) returns (r: Option<R>)
      modifies this
      ensures (State(), r) == Run([ContainerGuard(canConnect)], old(State()), handler)
    {
      if !canConnect {
        deferred := true;
        status := WaitingStatus(ContainerWaitMessage);
        return None;
      }
      var x := Call(handler);
      r := Some(x);
    }

    /** `validate_integration_exists(integration_name)`: no relation of that name defers the event and blocks. */
    method ValidateIntegrationExists<R>(integrationName: string, relationIds: seq<int>, handler: HookState -> (HookState, R))
      returns (r: Option<R>)
      modifies this
      ensures (State(), r) == Run([IntegrationGuard(integrationName, relationIds)], old(State()), handler)
    {
      if |relationIds| == 0 {
        deferred := true;
        status := BlockedStatus(MissingIntegrationMessage(integrationName));
        return None;
      }
      var x := Call(handler);
      r := Some(x);
    }

    /** `validate_database_resource`: a database not yet created defers the event and waits. */
    method ValidateDatabaseResource<R>(resourceCreated: bool, handler: HookState -> (HookState, R)) returns (r: Option<R>)
      modifies this
      ensures (State(), r) == Run([DatabaseGuard(resourceCreated)], old(State()), handler)
    {
      if !resourceCreated {
        deferred := true;
        status := WaitingStatus(DatabaseWaitMessage);
        return None;
      }
      var x := Call(handler);
      r := Some(x);
    }
  }
}
