/**
 What both clients keep of the agent and do in the same way: the cached agent state, the outbox, and the
 callbacks consulted.
 */
module Sessions {
  import opened Wrappers
  import opened Messages
  import opened Surroundings

  /**
   The part of a client that a poll works on. `enqueued` is the log of all that was ever pushed onto the
   outbox, `calls` the callback calls made so far, `ticks` the number of clock readings taken so far.
   */
  datatype Desk = Desk(
    agentState: Option<AgentToServer>,
    outbox: seq<Queued>,
    enqueued: seq<Queued>,
    calls: seq<Call>,
    ticks: nat)

  /** What the unwraps of get_health need. */
  predicate HealthKnown(desk: Desk) {
    desk.agentState.Some? && desk.agentState.value.health.Some?
  }

  predicate Healthy(desk: Desk) {
    HealthKnown(desk) && desk.agentState.value.health.value.healthy
  }

  function Push(desk: Desk, origin: Origin, msg: AgentToServer): Desk {
    desk.(outbox := desk.outbox + [Queued(origin, msg)],
          enqueued := desk.enqueued + [Queued(origin, msg)])
  }

  function Tell(desk: Desk, call: Call): Desk {
    desk.(calls := desk.calls + [call])
  }

  /** Ask a callback, and queue its reply if it has one. */
  function Consult(w: World, desk: Desk, call: Call): Desk {
    var told := Tell(desk, call);
    match w.reply(told.calls)
    case Answered(Some(msg)) => Push(told, CallbackReply, msg)
    case Answered(None) => told
    case Refused(_) => told
  }

  /** The full state as get_status builds it: the configuration and the features are asked for, in that order. */
  function InitialStatus(w: World, calls: seq<Call>, startTime: nat): AgentToServer {
    var asked := calls + [GetConfiguration];
    var configMap := match w.configuration(asked) case Answered(reply) => reply case Refused(_) => None;
    var (capabilities, flags) := w.features(asked + [GetFeatures]);
    AgentToServer(w.instanceId, 0, capabilities, flags, Some(w.description),
      Some(AgentHealth(false, startTime % U64, "")), Some(configMap), Some(""), Some(""), None)
  }

  /** The status built the first time it is asked for: no callback has run before, no clock was read. */
  function FirstStatus(w: World): AgentToServer {
    InitialStatus(w, [], w.clock(0))
  }

  /** get_status: build the agent state if there is none yet. */
  function Populate(w: World, desk: Desk): Desk {
    if desk.agentState.Some? then desk
    else
      desk.(agentState := Some(InitialStatus(w, desk.calls, w.clock(desk.ticks))),
            calls := desk.calls + [GetConfiguration] + [GetFeatures],
            ticks := desk.ticks + 1)
  }

  function SetHealth(w: World, desk: Desk, healthy: bool): Desk {
    var populated := Populate(w, desk);
    if populated.agentState.value.health.Some? then
      populated.(agentState := Some(WithHealth(populated.agentState.value, healthy)))
    else populated
  }

  function WithHealth(status: AgentToServer, healthy: bool): AgentToServer
    requires status.health.Some?
  {
    status.(health := Some(status.health.value.(healthy := healthy)))
  }

  /** get_health: the cached health, stamped with the present time as a 64-bit word. */
  function CurrentHealth(w: World, desk: Desk): AgentHealth
    requires HealthKnown(desk)
  {
    desk.agentState.value.health.value.(startTime := w.clock(desk.ticks) % U64)
  }

  function ReportStatus(w: World, desk: Desk, origin: Origin): Desk {
    var populated := Populate(w, desk);
    Push(populated, origin, populated.agentState.value)
  }

  /** The client's own report that it is healthy. */
  function HealthMessage(w: World, health: AgentHealth): AgentToServer {
    DEFAULT_MESSAGE.(instanceUid := w.instanceId, health := Some(health.(healthy := true)))
  }

  /** The first thing a poll does: a client that is not yet healthy becomes so, and queues a report of it. */
  function ReportHealth(w: World, desk: Desk): Desk
    requires HealthKnown(desk)
  {
    var health := CurrentHealth(w, desk);
    var read := desk.(ticks := desk.ticks + 1);
    if health.healthy then read
    else
      Push(SetHealth(w, read, true), HealthReport, HealthMessage(w, health))
  }

  /** From here on no message of this origin. */
  ghost predicate NoneSince(items: seq<Queued>, from: nat, origin: Origin) {
    forall i | from <= i < |items| :: items[i].origin != origin
  }
}
