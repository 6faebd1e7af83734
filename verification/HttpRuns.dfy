/**
 Runs of the HTTP client: one trigger told by its effects alone, and the client after any number of triggers.
 */
module HttpRuns {
  import opened Wrappers
  import opened Messages
  import opened Surroundings
  import opened Sessions
  import opened StateMachine
  import opened HttpModel
  import opened HttpSteps
  import opened Plans

  ghost function SentBatch(w: World, c: Client): Batch {
    var flushed := Flush(w, c.(desk := c.desk.(outbox := [])), c.desk.outbox);
    Batch(flushed.sent, flushed.dropped)
  }

  ghost function AfterSending(c: Client, batch: Batch): Client {
    var sent := Advance(c.(desk := c.desk.(outbox := [])), batch.sent);
    sent.(journal := sent.journal.(batches := c.journal.batches + [batch]))
  }

  lemma SendResult(w: World, c: Client)
    ensures HttpModel.Send(w, c).0 == AfterSending(c, SentBatch(w, c))
    ensures var outcome := HttpModel.Send(w, c).1;
      outcome.Ok? && if Broken(SentBatch(w, c).sent) then outcome.response.Error? else outcome.response == Reply("sent")
  {
    var emptied := c.(desk := c.desk.(outbox := []));
    FlushAdvances(w, emptied, c.desk.outbox);
    FlushShape(w, emptied, c.desk.outbox);
  }

  lemma SentShape(w: World, c: Client)
    requires c.desk.outbox != []
    ensures Shaped(SentBatch(w, c))
    ensures Queueds(SentBatch(w, c).sent) + SentBatch(w, c).dropped == c.desk.outbox
  {
    var emptied := c.(desk := c.desk.(outbox := []));
    FlushShape(w, emptied, c.desk.outbox);
    FlushTakesAll(w, emptied, c.desk.outbox);
  }

  lemma SentAttempts(w: World, c: Client, i: nat)
    requires i < |SentBatch(w, c).sent|
    ensures SentBatch(w, c).sent[i] == AttemptAt(w, c, SentBatch(w, c).sent[i].queued, i)
  {
    FlushAttempts(w, c.(desk := c.desk.(outbox := [])), c.desk.outbox, i);
  }

  // ---- One trigger, told by its effects ----

  ghost predicate Polls(w: World, c: Client, c': Client, calls: seq<Call>, produced: seq<Queued>)
    requires HealthKnown(c.desk)
  {
    var status := c.desk.agentState.value;
    match KindOf(w, c)
    case Reports =>
      c' == c.(desk := Push(c.desk.(ticks := c.desk.ticks + 1, agentState := Some(WithHealth(status, true))),
                            HealthReport, HealthMessage(w, CurrentHealth(w, c.desk))),
               state := Sending("flushing queue"))
    case Beats =>
      c' == c.(desk := Push(ReadTwice(c).desk, Heartbeat, HeartbeatMessage(w)), state := Sending("server poll"))
    case Rests =>
      c' == ReadTwice(c)
    case Serves =>
      && c' == AfterServing(ReadTwice(c), calls, produced).(
           state := if produced == [] then c.state else Sending("messages pending"))
      && Service(status, calls, produced)
  }

  ghost predicate Sends(w: World, c: Client, c': Client, batch: Batch) {
    && c' == AfterSending(c, batch).(state := c'.state)
    && (if Broken(batch.sent) then c'.state.Polling? else c'.state == Waiting("sent"))
    && Shaped(batch)
    && Queueds(batch.sent) + batch.dropped == c.desk.outbox
    && forall i | 0 <= i < |batch.sent| :: batch.sent[i] == AttemptAt(w, c, batch.sent[i].queued, i)
  }

  lemma TriggerPolls(w: World, c: Client) returns (calls: seq<Call>, produced: seq<Queued>)
    requires Coupled(c) && c.state.Polling?
    ensures Polls(w, c, HttpModel.Trigger(w, c), calls, produced)
  {
    hide HttpModel.Attend, ReportHealth, Plan, CallsOf, Produced;
    PollAccount(w, c);
    if KindOf(w, c) == Reports {
      ReportAccount(w, c.desk);
    }
    if KindOf(w, c) == Serves {
      calls, produced := ServedCalls(w, c), Served(w, c);
      ServeAsksOnce(w, c.inbox[|c.inbox| - 1]);
      ProducedOrigins(w, c.desk.agentState.value, c.desk.calls, ServePlan(w, c.inbox[|c.inbox| - 1]));
    } else {
      calls, produced := [], [];
    }
  }

  lemma TriggerSends(w: World, c: Client) returns (batch: Batch)
    requires Coupled(c) && c.state.Sending?
    ensures Sends(w, c, HttpModel.Trigger(w, c), batch)
  {
    batch := SentBatch(w, c);
    SendResult(w, c);
    SentShape(w, c);
    forall i | 0 <= i < |batch.sent|
      ensures batch.sent[i] == AttemptAt(w, c, batch.sent[i].queued, i)
    {
      SentAttempts(w, c, i);
    }
  }

  ghost predicate Dials(w: World, c: Client, c': Client) {
    match w.head(c.heads)
    case Status(code) =>
      c' == c.(heads := c.heads + 1,
               state := if code != 404 then Connected("remote server present") else Disconnected("404 Not Found"))
    case Unreachable(_) =>
      var gaveUp := c.backoff + 1 > w.retryLimit;
      && c'.state.Disconnected?
      && c' == c.(heads := c.heads + 1, backoff := c.backoff + 1, state := c'.state,
                  journal := c.journal.(
                    slept := c.journal.slept + (if gaveUp then 0 else Pow2(c.backoff + 1) % U64),
                    giveUps := c.journal.giveUps + (if gaveUp then 1 else 0)))
  }

  /** The parts of a trigger's effect that the world decides. */
  datatype Move = Move(calls: seq<Call>, produced: seq<Queued>, batch: Batch)

  const NO_BATCH := Batch([], [])

  ghost predicate Moves(w: World, c: Client, c': Client, move: Move)
    requires Coupled(c)
  {
    match c.state
    case Disconnected(_) => c' == c.(state := Connecting(""))
    case Connecting(_) => Dials(w, c, c')
    case Connected(_) =>
      c' == c.(desk := ReportStatus(w, c.desk, FullStateHandshake), state := Sending("Handshake enqueued"))
    case Polling(_) => Polls(w, c, c', move.calls, move.produced)
    case Sending(_) => Sends(w, c, c', move.batch)
    case Waiting(_) => c' == c.(state := Polling(""))
  }

  lemma TriggerMoves(w: World, c: Client) returns (move: Move)
    requires Coupled(c)
    ensures Moves(w, c, HttpModel.Trigger(w, c), move)
  {
    move := Move([], [], NO_BATCH);
    if c.state.Polling? {
      var calls, produced := TriggerPolls(w, c);
      move := Move(calls, produced, NO_BATCH);
    } else if c.state.Sending? {
      var batch := TriggerSends(w, c);
      move := Move([], [], batch);
    }
  }

  lemma MovesKeepCoupled(w: World, c: Client, c': Client, move: Move)
    requires Coupled(c) && Moves(w, c, c', move)
    ensures Coupled(c')
  {
  }

  lemma TriggerKeepsCoupled(w: World, c: Client)
    requires Coupled(c)
    ensures Coupled(HttpModel.Trigger(w, c))
  {
    var move := TriggerMoves(w, c);
    MovesKeepCoupled(w, c, HttpModel.Trigger(w, c), move);
  }

  /** The client after n triggers. Its queue is coupled to its state throughout, so no unwrap of its health can fail. */
  function Run(w: World, n: nat): (c: Client)
    ensures Coupled(c)
  {
    if n == 0 then Initial()
    else
      TriggerKeepsCoupled(w, Run(w, n - 1));
      HttpModel.Trigger(w, Run(w, n - 1))
  }

  predicate Opening(state: State) {
    state.Disconnected? || state.Connecting? || state.Connected?
  }

  lemma RunTriggers(w: World, n: nat)
    ensures Run(w, n + 1) == HttpModel.Trigger(w, Run(w, n))
  {
  }

  lemma RunMoves(w: World, n: nat) returns (move: Move)
    ensures Moves(w, Run(w, n), Run(w, n + 1), move)
  {
    hide HttpModel.Trigger;
    RunTriggers(w, n);
    move := TriggerMoves(w, Run(w, n));
  }

  /** What the operation of trigger n told the state machine. */
  function OutcomeOf(w: World, n: nat): Outcome {
    Perform(w, Run(w, n)).1
  }

  /** Run n's state is the machine's, driven by those outcomes: what holds of every channel holds of this client. */
  lemma {:induction false} RunIsDriven(w: World, n: nat)
    ensures Run(w, n).state == Drive(seq(n, (i: nat) => OutcomeOf(w, i)))
  {
    var outcomes := seq(n, (i: nat) => OutcomeOf(w, i));
    if n > 0 {
      RunIsDriven(w, n - 1);
      assert outcomes[..n - 1] == seq(n - 1, (i: nat) => OutcomeOf(w, i));
      RunEvaluates(w, n - 1);
    }
  }

  lemma RunEvaluates(w: World, n: nat)
    ensures Run(w, n + 1).state == Evaluate(Run(w, n).state, OutcomeOf(w, n))
  {
    hide Perform;
  }

  /** A client in Sending has something to send, and its send attempts at least one request. */
  lemma SendingAttempts(w: World, n: nat)
    requires Run(w, n).state.Sending?
    ensures Run(w, n).desk.outbox != [] && |Run(w, n + 1).journal.wire| > |Run(w, n).journal.wire|
    ensures Run(w, n + 1).desk.outbox == []
  {
    hide Run;
    var move := RunMoves(w, n);
  }
}
