/**
 The OpAMP messages, as far as the clients look into them. Payloads they only carry are opaque.
 */
module Messages {
  import opened Wrappers

  /** A payload that is carried and never looked into. */
  type Blob = string

  datatype AgentHealth = AgentHealth(healthy: bool, startTime: nat, lastError: string)

  datatype AgentToServer = AgentToServer(
    instanceUid: string,
    sequenceNum: nat,
    capabilities: nat,
    flags: nat,
    agentDescription: Option<Blob>,
    health: Option<AgentHealth>,
    effectiveConfig: Option<Option<Blob>>,
    remoteConfigStatus: Option<Blob>,
    packageStatuses: Option<Blob>,
    agentDisconnect: Option<Blob>)

  /** A message with every field unset. */
  const DEFAULT_MESSAGE := AgentToServer("", 0, 0, 0, None, None, None, None, None, None)

  datatype Offers = Offers(ownMetrics: Option<Blob>, ownTraces: Option<Blob>, ownLogs: Option<Blob>)

  datatype ServerToAgent = ServerToAgent(
    instanceUid: string,
    flags: bv64,
    command: Option<Blob>,
    errorResponse: Option<Blob>,
    remoteConfig: Option<Blob>,
    connectionSettings: Option<Offers>,
    packagesAvailable: Option<Blob>)

  /** ServerToAgentFlags.ReportFullState of the OpAMP specification. */
  const REPORT_FULL_STATE: bv64 := 1

  predicate AsksFullState(msg: ServerToAgent) {
    msg.flags & REPORT_FULL_STATE != 0
  }

  /** The number of values of a 64-bit word. */
  const U64: nat := 0x1_0000_0000_0000_0000

  /**
   Where in a client a message was pushed onto the outbox. The clients never look at it: it is kept so that
   statements can tell a message the client made up from one a callback answered with.
   */
  datatype Origin = FullStateHandshake | HealthReport | Heartbeat | FullStateReport | CallbackReply

  datatype Queued = Queued(origin: Origin, msg: AgentToServer)
}
