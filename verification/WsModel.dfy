/**
 What each operation of the websocket client does, for as long as its stream is established and its sends
 succeed.
 */
module WsModel {
  import opened Wrappers
  import opened Messages
  import opened Surroundings
  import opened Sessions
  import opened StateMachine

  datatype Sent = Sent(queued: Queued, wire: AgentToServer)

  datatype Socket = Socket(desk: Desk, seqno: nat, state: State, frames: nat, wire: seq<Sent>)

  function Initial(): Socket {
    Socket(Desk(None, [], [], [], 0), 0, Disconnected(""), 0, [])
  }

  /** The stream is taken to be established. */
  function Connect(w: World, s: Socket): (Socket, Outcome) {
    (s.(desk := SetHealth(w, s.desk, false)), Ok(Reply("connected")))
  }

  function Handshake(w: World, s: Socket): (Socket, Outcome) {
    (s.(desk := ReportStatus(w, SetHealth(w, s.desk, false), FullStateHandshake)), Ok(Reply("handshake enqueued")))
  }

  function Command(w: World, desk: Desk, msg: ServerToAgent): Desk {
    if msg.command.Some? then Consult(w, desk, OnCommand(msg)) else desk
  }

  function RelayError(desk: Desk, msg: ServerToAgent): Desk {
    if msg.errorResponse.Some? then Tell(desk, OnError(msg)) else desk
  }

  function ReportFullState(w: World, desk: Desk, msg: ServerToAgent): Desk {
    if !AsksFullState(msg) then desk
    else if msg.instanceUid == w.instanceId then ReportStatus(w, SetHealth(w, desk, true), FullStateReport)
    else Consult(w, desk, OnHealthCheck(msg))
  }

  function RemoteConfig(w: World, desk: Desk, msg: ServerToAgent): Desk {
    if msg.remoteConfig.Some? then Consult(w, desk, OnAgentRemoteConfig(msg)) else desk
  }

  function OfferConnections(w: World, desk: Desk, msg: ServerToAgent): Desk {
    if msg.connectionSettings.None? then desk
    else
      var offers, call := msg.connectionSettings.value, OnConnectionSettingsOffers(msg);
      var metrics := if offers.ownMetrics.Some? then Consult(w, desk, call) else desk;
      var traces := if offers.ownTraces.Some? then Consult(w, metrics, call) else metrics;
      if offers.ownLogs.Some? then Consult(w, traces, call) else traces
  }

  function Packages(w: World, desk: Desk, msg: ServerToAgent): Desk {
    if msg.packagesAvailable.Some? then Consult(w, desk, OnPackagesAvailable(msg)) else desk
  }

  function Dispatch(w: World, desk: Desk, msg: ServerToAgent): Desk {
    var relayed := RelayError(Command(w, desk, msg), msg);
    var configured := RemoteConfig(w, ReportFullState(w, relayed, msg), msg);
    Packages(w, OfferConnections(w, configured, msg), msg)
  }

  /** What poll does once nothing of its own is waiting to go out */
  function ServeFrame(w: World, s: Socket): (Socket, Outcome) {
    var dispatched :=
      match w.frame(s.frames)
      case Inbound(msg) => Dispatch(w, s.desk, msg)
      case Unusable => s.desk;
    var looped := Consult(w, dispatched, OnLoop);
    (s.(desk := looped, frames := s.frames + 1),
     if looped.outbox == [] then Ok(Nothing) else Ok(Reply("messages pending")))
  }

  function Poll(w: World, s: Socket): (Socket, Outcome)
    requires HealthKnown(s.desk)
  {
    var reported := ReportHealth(w, s.desk);
    if reported.outbox != [] then (s.(desk := reported), Ok(Reply("flushing queue")))
    else ServeFrame(w, s.(desk := reported))
  }

  function Stamp(desk: Desk, seqno: nat, msg: AgentToServer): AgentToServer {
    var (capabilities, flags) :=
      if desk.agentState.Some? then (desk.agentState.value.capabilities, desk.agentState.value.flags) else (0, 0);
    msg.(capabilities := capabilities, flags := flags, sequenceNum := seqno)
  }

  /** What flush puts on the wire: the i-th pending message, stamped with the i-th number from here. */
  function Stamps(s: Socket): (sent: seq<Sent>)
  {
    seq(|s.desk.outbox|, i requires 0 <= i < |s.desk.outbox| =>
      Sent(s.desk.outbox[i], Stamp(s.desk, s.seqno + i + 1, s.desk.outbox[i].msg)))
  }

  function Send(s: Socket): (Socket, Outcome) {
    (s.(desk := s.desk.(outbox := []), seqno := s.seqno + |s.desk.outbox|, wire := s.wire + Stamps(s)),
     Ok(Reply("messages sent")))
  }

  predicate Coupled(s: Socket) {
    && (s.desk.outbox != [] <==> s.state.Sending?)
    && (!s.state.Disconnected? && !s.state.Connecting? ==> s.desk.agentState.Some?)
    && (s.desk.agentState.Some? ==> s.desk.agentState.value.health.Some?)
  }

  function Perform(w: World, s: Socket): (Socket, Outcome)
    requires Coupled(s)
  {
    match Awaits(s.state)
    case Idle => (s, Ok(Nothing))
    case Connect => Connect(w, s)
    case Handshake => Handshake(w, s)
    case Poll => Poll(w, s)
    case Send => Send(s)
    case Wait => (s, Ok(Reply("")))
  }

  function Trigger(w: World, s: Socket): Socket
    requires Coupled(s)
  {
    var (after, outcome) := Perform(w, s);
    after.(state := Evaluate(s.state, outcome))
  }
}
