/**
 What the client says of itself in an HTTP run: the opening exchange, and the capabilities on every message.
 */
module HttpOpening {
  import opened Wrappers
  import opened Messages
  import opened Surroundings
  import opened Sessions
  import opened HttpModel
  import opened HttpSteps
  import opened HttpRuns
  import opened HttpLedger
  import opened Plans

  // ---- What is known of the agent throughout a run ----

  function HealthyStatus(w: World): AgentToServer {
    WithHealth(FirstStatus(w), true)
  }

  /** The health report the client sends on its own account at its first poll, the third clock reading. */
  function FirstHealthReport(w: World): AgentToServer {
    HealthMessage(w, AgentHealth(false, w.clock(2) % U64, ""))
  }

  /** Nothing has been asked, read, queued or sent. */
  predicate Pristine(c: Client) {
    && c.desk == Desk(None, [], [], [], 0)
    && c.seqno == 0 && c.lastSent == 0 && c.posts == 0 && c.inbox == []
    && c.journal.wire == [] && c.journal.batches == [] && c.journal.received == [] && c.journal.processed == []
  }

  /** Every message on the wire is the queued one, but for its number and the first status's capabilities and flags. */
  ghost predicate Stamped(w: World, wire: seq<Attempt>) {
    forall i | 0 <= i < |wire| ::
      wire[i].wire == wire[i].queued.msg.(sequenceNum := wire[i].wire.sequenceNum,
        capabilities := FirstStatus(w).capabilities, flags := FirstStatus(w).flags)
  }

  /** After the handshake the agent state is the first status, with the health perhaps turned good. */
  ghost predicate Settled(w: World, c: Client) {
    && (c.desk.agentState == Some(FirstStatus(w)) || c.desk.agentState == Some(HealthyStatus(w)))
    && Asked(c.desk.calls, |c.journal.processed|)
    && Stamped(w, c.journal.wire)
  }

  ghost predicate Identity(w: World, c: Client) {
    if Opening(c.state) then Pristine(c) else Settled(w, c)
  }

  lemma StampedMore(w: World, c: Client, sent: seq<Attempt>)
    requires Settled(w, c)
    requires forall i | 0 <= i < |sent| :: sent[i] == AttemptAt(w, c, sent[i].queued, i)
    ensures Stamped(w, c.journal.wire + sent)
  {
    var wire := c.journal.wire + sent;
    forall i | 0 <= i < |wire|
      ensures wire[i].wire == wire[i].queued.msg.(sequenceNum := wire[i].wire.sequenceNum,
        capabilities := FirstStatus(w).capabilities, flags := FirstStatus(w).flags)
    {
      if |c.journal.wire| <= i {
        assert wire[i] == sent[i - |c.journal.wire|];
      }
    }
  }

  lemma SettledByPoll(w: World, c: Client, c': Client, calls: seq<Call>, produced: seq<Queued>)
    requires HealthKnown(c.desk) && Settled(w, c) && Polls(w, c, c', calls, produced)
    ensures Settled(w, c')
  {
    hide InitialStatus;
    if KindOf(w, c) == Serves {
      AskedMore(c.desk.calls, |c.journal.processed|, calls, c.desk.agentState.value, produced);
    }
  }

  lemma SettledByHandshake(w: World, c: Client, c': Client)
    requires Pristine(c) && c'.desk == ReportStatus(w, c.desk, FullStateHandshake) && c'.journal == c.journal
    ensures Settled(w, c')
  {
    hide InitialStatus;
    assert c'.desk.calls == [GetConfiguration, GetFeatures];
  }

  lemma SettledBySend(w: World, c: Client, c': Client, batch: Batch)
    requires Settled(w, c) && Sends(w, c, c', batch)
    ensures Settled(w, c')
  {
    hide InitialStatus;
    StampedMore(w, c, batch.sent);
  }

  lemma IdentityStep(w: World, c: Client, c': Client, move: Move)
    requires Coupled(c) && Identity(w, c) && Moves(w, c, c', move)
    ensures Identity(w, c')
  {
    hide InitialStatus, Polls, Sends, ReportStatus;
    match c.state {
      case Connected(_) => SettledByHandshake(w, c, c');
      case Polling(_) =>
        PollsStayOpen(w, c, c', move);
        SettledByPoll(w, c, c', move.calls, move.produced);
      case Sending(_) =>
        SendsStayOpen(w, c, c', move);
        SettledBySend(w, c, c', move.batch);
      case _ =>
    }
  }

  lemma PollsStayOpen(w: World, c: Client, c': Client, move: Move)
    requires Coupled(c) && Moves(w, c, c', move) && c.state.Polling?
    ensures !Opening(c'.state)
  {
  }

  lemma SendsStayOpen(w: World, c: Client, c': Client, move: Move)
    requires Coupled(c) && Moves(w, c, c', move) && c.state.Sending?
    ensures !Opening(c'.state)
  {
  }

  lemma {:induction false} IdentityHolds(w: World, n: nat)
    ensures Identity(w, Run(w, n))
  {
    hide HttpModel.Trigger;
    if n > 0 {
      IdentityHolds(w, n - 1);
      var move := RunMoves(w, n - 1);
      IdentityStep(w, Run(w, n - 1), Run(w, n), move);
    }
  }

  // ---- Messages that travel alone ----

  /** Messages the client makes up on its own account. */
  predicate SelfMade(origin: Origin) {
    origin.FullStateHandshake? || origin.HealthReport? || origin.Heartbeat?
  }

  /** A self-made message is never queued or sent together with another. */
  ghost predicate Lone(items: seq<Queued>) {
    forall i | 0 <= i < |items| && SelfMade(items[i].origin) :: |items| == 1
  }

  ghost predicate Solo(c: Client) {
    && Lone(c.desk.outbox)
    && forall k | 0 <= k < |c.journal.batches| :: Lone(Taken(c.journal.batches[k]))
  }

  lemma SoloStep(w: World, c: Client, c': Client, move: Move)
    requires Coupled(c) && Solo(c) && Moves(w, c, c', move)
    ensures Solo(c')
  {
  }

  lemma {:induction false} SoloHolds(w: World, n: nat)
    ensures Solo(Run(w, n))
  {
    hide HttpModel.Trigger;
    if n > 0 {
      SoloHolds(w, n - 1);
      var move := RunMoves(w, n - 1);
      SoloStep(w, Run(w, n - 1), Run(w, n), move);
    }
  }

  // ---- The opening exchange ----

  /** The first thing enqueued is the handshake, the second the health report, and neither ever again. */
  ghost predicate Opened(w: World, c: Client) {
    var items := c.desk.enqueued;
    && items != [] && items[0] == Queued(FullStateHandshake, FirstStatus(w))
    && NoneSince(items, 1, FullStateHandshake)
    && if Healthy(c.desk) then
         |items| >= 2 && items[1] == Queued(HealthReport, FirstHealthReport(w)) && NoneSince(items, 2, HealthReport)
       else
         |items| == 1 && c.desk.ticks == if c.state.Sending? then 1 else 2
  }

  ghost predicate Greeting(w: World, c: Client) {
    && Identity(w, c)
    && Conserved(c)
    && (!Opening(c.state) ==> Opened(w, c))
  }

  lemma GreetingStep(w: World, c: Client, c': Client, move: Move)
    requires Coupled(c) && Greeting(w, c) && Moves(w, c, c', move)
    ensures !Opening(c'.state) ==> Opened(w, c')
  {
    if c.state.Sending? {
      OpenedBySend(w, c, c', move.batch);
    } else if c.state.Polling? {
      OpenedByPoll(w, c, c', move.calls, move.produced);
    }
  }

  lemma OpenedByPoll(w: World, c: Client, c': Client, calls: seq<Call>, produced: seq<Queued>)
    requires HealthKnown(c.desk) && c.state.Polling? && Settled(w, c) && Opened(w, c)
    requires Polls(w, c, c', calls, produced)
    ensures Opened(w, c')
  {
  }

  lemma OpenedBySend(w: World, c: Client, c': Client, batch: Batch)
    requires c.state.Sending? && Conserved(c) && Opened(w, c) && Sends(w, c, c', batch)
    ensures Opened(w, c')
  {
    hide InitialStatus;
    if !Healthy(c.desk) {
      assert |c.desk.enqueued| == |AllTaken(c.journal.batches)| + |c.desk.outbox|;
      assert |Queueds(batch.sent) + batch.dropped| == |c.desk.outbox| == 1;
    }
  }

  lemma NotOpenedAtFirst(w: World)
    ensures Opening(Run(w, 0).state)
  {
    assert Run(w, 0) == Initial();
  }

  lemma {:induction false} GreetingHolds(w: World, n: nat)
    ensures Greeting(w, Run(w, n))
  {
    hide Run, Moves, Opened, Identity, Conserved, Stacked, Contiguous, Opening;
    IdentityHolds(w, n);
    BooksBalance(w, n);
    if n == 0 {
      NotOpenedAtFirst(w);
    } else {
      GreetingHolds(w, n - 1);
      var move := RunMoves(w, n - 1);
      GreetingStep(w, Run(w, n - 1), Run(w, n), move);
    }
  }

  lemma Regroup<T>(a: seq<T>, b: seq<T>, c: seq<T>)
    ensures (a + b) + c == a + (b + c)
  {
  }

  lemma {:induction false} FirstTaken(batches: seq<Batch>)
    requires batches != []
    ensures AllTaken(batches) == Taken(batches[0]) + AllTaken(batches[1..])
    decreases |batches|
  {
    hide Taken;
    var last, rest := |batches| - 1, batches[1..];
    if last == 0 {
      assert batches[..0] == [];
    } else {
      FirstTaken(batches[..last]);
      assert batches[..last][1..] == rest[..last - 1] && batches[..last][0] == batches[0];
      Regroup(Taken(batches[0]), AllTaken(rest[..last - 1]), Taken(batches[last]));
    }
  }

  lemma {:induction false} FirstWire(batches: seq<Batch>)
    requires batches != []
    ensures AllSent(batches) == batches[0].sent + AllSent(batches[1..])
    decreases |batches|
  {
    var last, rest := |batches| - 1, batches[1..];
    if last == 0 {
      assert batches[..0] == [];
    } else {
      FirstWire(batches[..last]);
      assert batches[..last][1..] == rest[..last - 1];
      Regroup(batches[0].sent, AllSent(rest[..last - 1]), batches[last].sent);
    }
  }

  /** A self-made message at the head of what the batches took was sent first, alone in its batch. */
  lemma FirstSent(batches: seq<Batch>, first: Queued)
    requires batches != [] && Shaped(batches[0]) && Lone(Taken(batches[0]))
    requires |AllTaken(batches)| > 0 && AllTaken(batches)[0] == first && SelfMade(first.origin)
    ensures |batches[0].sent| == 1 && batches[0].sent[0].queued == first && batches[0].dropped == []
    ensures AllTaken(batches) == [first] + AllTaken(batches[1..])
    ensures AllSent(batches) == batches[0].sent + AllSent(batches[1..])
  {
    FirstTaken(batches);
    FirstWire(batches);
    var taken := Taken(batches[0]);
    assert taken[0] == AllTaken(batches)[0] == first == batches[0].sent[0].queued;
    assert |taken| == 1;
    assert taken == [first];
  }

  lemma FirstTwoSent(items: seq<Queued>, outbox: seq<Queued>, batches: seq<Batch>)
    requires items == AllTaken(batches) + outbox
    requires forall k | 0 <= k < |batches| :: Shaped(batches[k]) && Lone(Taken(batches[k]))
    requires |items| >= 1 && SelfMade(items[0].origin)
    requires |items| >= 2 ==> SelfMade(items[1].origin)
    ensures |AllSent(batches)| >= 1 ==> AllSent(batches)[0].queued == items[0]
    ensures |AllSent(batches)| >= 2 ==> |items| >= 2 && AllSent(batches)[1].queued == items[1]
  {
    if batches != [] {
      var rest := batches[1..];
      FirstTaken(batches);
      FirstWire(batches);
      FirstSent(batches, items[0]);
      if rest != [] {
        assert rest[0] == batches[1];
        FirstTaken(rest);
        FirstWire(rest);
        assert AllTaken(rest)[0] == items[1];
        FirstSent(rest, items[1]);
      }
    }
  }

  /** The handshake and the health report are enqueued at most once a run. */
  lemma OpenedOnce(w: World, n: nat, i: nat, j: nat)
    requires i < j < |Run(w, n).desk.enqueued|
    ensures var items := Run(w, n).desk.enqueued;
      items[i].origin == items[j].origin ==> !items[i].origin.FullStateHandshake? && !items[i].origin.HealthReport?
  {
    IdentityHolds(w, n);
    GreetingHolds(w, n);
    hide Run, InitialStatus;
  }

  // ---- One answer to each start-up question, stamped on every message ----

  lemma FirstFeatures(w: World)
    ensures (FirstStatus(w).capabilities, FirstStatus(w).flags) == w.features([GetConfiguration, GetFeatures])
  {
    assert [] + [GetConfiguration] + [GetFeatures] == [GetConfiguration, GetFeatures];
  }

  /** The embedder is asked once for its features, and every message carries that answer and the next number. */
  lemma StableCapabilities(w: World, n: nat)
    ensures var c := Run(w, n);
      && multiset(c.desk.calls)[GetConfiguration] <= 1
      && multiset(c.desk.calls)[GetFeatures] <= 1
      && forall i | 0 <= i < |c.journal.wire| ::
           var (capabilities, flags) := w.features([GetConfiguration, GetFeatures]);
           c.journal.wire[i].wire == c.journal.wire[i].queued.msg.(
             sequenceNum := i + 1, capabilities := capabilities, flags := flags)
  {
    IdentityHolds(w, n);
    ContiguousNumbering(w, n);
    FirstFeatures(w);
    hide Run, FirstStatus;
    var wire := Run(w, n).journal.wire;
    forall i | 0 <= i < |wire|
      ensures var (capabilities, flags) := w.features([GetConfiguration, GetFeatures]);
        wire[i].wire == wire[i].queued.msg.(sequenceNum := i + 1, capabilities := capabilities, flags := flags)
    {
      assert Stamped(w, wire);
    }
  }

  /**
   Whatever fails, the first two requests are the full state, reported unhealthy, and then the
   client's own report that it is healthy.
   */
  lemma OpeningExchange(w: World, n: nat)
    ensures var wire := Run(w, n).journal.wire;
      && (|wire| >= 1 ==> wire[0].queued == Queued(FullStateHandshake, FirstStatus(w))
                          && wire[0].wire == FirstStatus(w).(sequenceNum := 1))
      && (|wire| >= 2 ==> wire[1].queued == Queued(HealthReport, FirstHealthReport(w))
                          && wire[1].wire == FirstHealthReport(w).(sequenceNum := 2,
                               capabilities := FirstStatus(w).capabilities, flags := FirstStatus(w).flags))
      && !FirstStatus(w).health.value.healthy && FirstHealthReport(w).health.value.healthy
  {
    BooksBalance(w, n);
    SoloHolds(w, n);
    IdentityHolds(w, n);
    GreetingHolds(w, n);
    StableCapabilities(w, n);
    FirstFeatures(w);
    hide Run, Stacked, Contiguous, Settled;
    var c := Run(w, n);
    if |c.journal.wire| >= 1 {
      FirstTwoSent(c.desk.enqueued, c.desk.outbox, c.journal.batches);
    }
  }

  /** on_loop is called once for every message processed. */
  lemma OneLoopPerMessage(w: World, n: nat)
    ensures multiset(Run(w, n).desk.calls)[OnLoop] == |Run(w, n).journal.processed|
  {
    IdentityHolds(w, n);
  }
}
