/**
 What each operation of the HTTP client does, as functions on a client's whole state.
 */
module HttpModel {
  import opened Wrappers
  import opened Messages
  import opened Surroundings
  import opened Sessions
  import opened StateMachine

  /** Nanoseconds of silence after which a heartbeat is due. */
  const SERVER_POLL_DELAY: nat := 30_000_000_000

  /** One POST: the queued message, the message as stamped, when it went out and what came of it. */
  datatype Attempt = Attempt(queued: Queued, wire: AgentToServer, time: nat, result: PostResult)

  /** One send: the attempts made, and the messages dropped behind a failed one. */
  datatype Batch = Batch(sent: seq<Attempt>, dropped: seq<Queued>)

  /** A record of the run that the client itself does not keep. */
  datatype Journal = Journal(
    slept: nat,
    giveUps: nat,
    wire: seq<Attempt>,
    batches: seq<Batch>,
    received: seq<ServerToAgent>,
    processed: seq<ServerToAgent>)

  /** The client's fields, how far it is with the world's HEAD and POST requests, and the journal. */
  datatype Client = Client(
    desk: Desk,
    backoff: nat,
    seqno: nat,
    lastSent: nat,
    inbox: seq<ServerToAgent>,
    state: State,
    heads: nat,
    posts: nat,
    journal: Journal)

  function Initial(): Client {
    Client(Desk(None, [], [], [], 0), 0, 0, 0, [], Disconnected(""), 0, 0, Journal(0, 0, [], [], [], []))
  }

  function Pow2(n: nat): nat {
    if n == 0 then 1 else 2 * Pow2(n - 1)
  }

  // ---- Connect and handshake ----

  /** Two to the number of failures is how many seconds to pause; the power is taken in 64 bits. */
  function Connect(w: World, c: Client): (Client, Outcome) {
    var asked := c.(heads := c.heads + 1);
    match w.head(c.heads)
    case Status(code) =>
      if code != 404 then (asked, Ok(Reply("remote server present")))
      else (asked, Ok(Error("404 Not Found")))
    case Unreachable(e) =>
      var backoff := c.backoff + 1;
      if backoff > w.retryLimit then
        (asked.(backoff := backoff, journal := c.journal.(giveUps := c.journal.giveUps + 1)),
         Err("Failed to connect to endpoint: " + e))
      else
        (asked.(backoff := backoff, journal := c.journal.(slept := c.journal.slept + Pow2(backoff) % U64)),
         Ok(Error("endpoint not responding: retrying ..")))
  }

  function Handshake(w: World, c: Client): (Client, Outcome) {
    (c.(desk := ReportStatus(w, c.desk, FullStateHandshake)), Ok(Reply("Handshake enqueued")))
  }

  // ---- Poll ----

  function ConsultIf(w: World, desk: Desk, condition: bool, call: Call): Desk {
    if condition then Consult(w, desk, call) else desk
  }

  /** A request for the full state is for this agent or for one of its children. */
  function ReportFullState(w: World, desk: Desk, msg: ServerToAgent): Desk {
    if !AsksFullState(msg) then desk
    else if msg.instanceUid == w.instanceId then ReportStatus(w, desk, FullStateReport)
    else Consult(w, desk, OnHealthCheck(msg))
  }

  function OfferConnections(w: World, desk: Desk, msg: ServerToAgent): Desk {
    if msg.connectionSettings.None? then desk
    else
      var offers := msg.connectionSettings.value;
      var metrics := ConsultIf(w, desk, offers.ownMetrics.Some?, OnConnectionSettingsOffers(msg));
      var traces := ConsultIf(w, metrics, offers.ownTraces.Some?, OnConnectionSettingsOffers(msg));
      ConsultIf(w, traces, offers.ownLogs.Some?, OnConnectionSettingsOffers(msg))
  }

  /** Show one message from the server to whoever it concerns. */
  function Dispatch(w: World, desk: Desk, msg: ServerToAgent): Desk {
    var commanded := ConsultIf(w, desk, msg.command.Some?, OnCommand(msg));
    var relayed := if msg.errorResponse.Some? then Tell(commanded, OnError(msg)) else commanded;
    var reported := ReportFullState(w, relayed, msg);
    var configured := ConsultIf(w, reported, msg.remoteConfig.Some?, OnAgentRemoteConfig(msg));
    var offered := OfferConnections(w, configured, msg);
    ConsultIf(w, offered, msg.packagesAvailable.Some?, OnPackagesAvailable(msg))
  }

  /** What poll does once there is a message to take: the last one in is the first one out. */
  function ProcessTop(w: World, c: Client): (Client, Outcome)
    requires c.inbox != []
  {
    var top := |c.inbox| - 1;
    var msg := c.inbox[top];
    var desk := Consult(w, Dispatch(w, c.desk, msg), OnLoop);
    (c.(desk := desk, inbox := c.inbox[..top], journal := c.journal.(processed := c.journal.processed + [msg])),
     if desk.outbox == [] then Ok(Nothing) else Ok(Reply("messages pending")))
  }

  /** What poll does once nothing of its own is waiting to go out. */
  function Attend(w: World, c: Client): (Client, Outcome) {
    var read := c.(desk := c.desk.(ticks := c.desk.ticks + 1));
    if w.clock(c.desk.ticks) >= c.lastSent + SERVER_POLL_DELAY then
      (c.(desk := Push(read.desk, Heartbeat, DEFAULT_MESSAGE.(instanceUid := w.instanceId))), Ok(Reply("server poll")))
    else if c.inbox == [] then (read, Ok(Nothing))
    else ProcessTop(w, read)
  }

  function Poll(w: World, c: Client): (Client, Outcome)
    requires HealthKnown(c.desk)
  {
    var reported := c.(desk := ReportHealth(w, c.desk));
    if reported.desk.outbox != [] then (reported, Ok(Reply("flushing queue")))
    else Attend(w, reported)
  }

  // ---- Send ----

  function Stamp(desk: Desk, seqno: nat, msg: AgentToServer): AgentToServer {
    var numbered := msg.(sequenceNum := seqno);
    if desk.agentState.Some? then
      numbered.(capabilities := desk.agentState.value.capabilities, flags := desk.agentState.value.flags)
    else numbered
  }

  function NextAttempt(w: World, c: Client, item: Queued): Attempt {
    Attempt(item, Stamp(c.desk, c.seqno + 1, item.msg), w.clock(c.desk.ticks), w.post(c.posts))
  }

  function SendAndReceive(w: World, c: Client, item: Queued): Client {
    var attempt := NextAttempt(w, c, item);
    c.(seqno := c.seqno + 1, lastSent := attempt.time, posts := c.posts + 1,
       desk := c.desk.(ticks := c.desk.ticks + 1), journal := c.journal.(wire := c.journal.wire + [attempt]))
  }

  function Deliver(c: Client, reply: ServerToAgent): Client {
    c.(inbox := c.inbox + [reply], journal := c.journal.(received := c.journal.received + [reply]))
  }

  /** The outcome of sending a batch: the client after it, the attempts, the failure if any, and what it dropped. */
  datatype Flushed = Flushed(client: Client, sent: seq<Attempt>, failure: Option<string>, dropped: seq<Queued>)

  /** Send messages in order until one fails; those behind it are dropped. */
  function Flush(w: World, c: Client, pending: seq<Queued>): Flushed
    decreases |pending|
  {
    if pending == [] then Flushed(c, [], None, [])
    else
      var attempt := NextAttempt(w, c, pending[0]);
      var tried := SendAndReceive(w, c, pending[0]);
      match attempt.result
      case Delivered(reply) =>
        var rest := Flush(w, Deliver(tried, reply), pending[1..]);
        rest.(sent := [attempt] + rest.sent)
      case Failed(e) => Flushed(tried, [attempt], Some(e), pending[1..])
  }

  /** A batch of which `sent` has already gone out, with the rest still to be flushed from `c`. */
  function Resume(w: World, sent: seq<Attempt>, c: Client, rest: seq<Queued>): Flushed {
    var flushed := Flush(w, c, rest);
    flushed.(sent := sent + flushed.sent)
  }

  lemma ResumeStep(w: World, sent: seq<Attempt>, c: Client, pending: seq<Queued>, i: nat)
    requires i < |pending|
    ensures var attempt := NextAttempt(w, c, pending[i]);
      var tried := SendAndReceive(w, c, pending[i]);
      Resume(w, sent, c, pending[i..]) ==
        match attempt.result
        case Delivered(reply) => Resume(w, sent + [attempt], Deliver(tried, reply), pending[i + 1..])
        case Failed(e) => Flushed(tried, sent + [attempt], Some(e), pending[i + 1..])
  {
    var attempt := NextAttempt(w, c, pending[i]);
    var tail := pending[i..];
    assert tail[0] == pending[i] && tail[1..] == pending[i + 1..];
    match attempt.result {
      case Delivered(reply) =>
        var rest := Flush(w, Deliver(SendAndReceive(w, c, pending[i]), reply), pending[i + 1..]);
        assert sent + ([attempt] + rest.sent) == sent + [attempt] + rest.sent;
      case Failed(e) =>
    }
  }

  function Send(w: World, c: Client): (Client, Outcome) {
    var flushed := Flush(w, c.(desk := c.desk.(outbox := [])), c.desk.outbox);
    (flushed.client.(journal := flushed.client.journal.(
       batches := c.journal.batches + [Batch(flushed.sent, flushed.dropped)])),
     if flushed.failure.Some? then Ok(Error(flushed.failure.value)) else Ok(Reply("sent")))
  }

  // ---- Trigger ----

  /** Something is queued exactly in Sending, and once the client has shaken hands its health is known. */
  predicate Coupled(c: Client) {
    && (c.desk.outbox != [] <==> c.state.Sending?)
    && (c.state.Polling? || c.state.Sending? || c.state.Waiting? ==> c.desk.agentState.Some?)
    && (c.desk.agentState.Some? ==> c.desk.agentState.value.health.Some?)
  }

  /** The awaited operation: the client after it, and how it came out. */
  function Perform(w: World, c: Client): (Client, Outcome)
    requires Coupled(c)
  {
    match Awaits(c.state)
    case Idle => (c, Ok(Nothing))
    case Connect => Connect(w, c)
    case Handshake => Handshake(w, c)
    case Poll => Poll(w, c)
    case Send => Send(w, c)
    case Wait => (c, Ok(Reply("")))
  }

  function Trigger(w: World, c: Client): Client
    requires Coupled(c)
  {
    var (after, outcome) := Perform(w, c);
    after.(state := Evaluate(c.state, outcome))
  }
}
