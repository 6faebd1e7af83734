/**
 Heartbeats: when they are due, that they travel alone, and how far apart from other requests they go out.
 */
module HttpHeartbeat {
  import opened Wrappers
  import opened Messages
  import opened Surroundings
  import opened Sessions
  import opened HttpModel
  import opened HttpSteps
  import opened HttpRuns
  import opened HttpLedger
  import opened HttpOpening

  /** The clock never goes back. */
  ghost predicate Monotone(w: World) {
    forall i: nat, j: nat | i <= j :: w.clock(i) <= w.clock(j)
  }

  /** Heartbeats on the wire keep their distance from the request before them. */
  ghost predicate Spaced(wire: seq<Attempt>) {
    forall i | 0 <= i < |wire| && wire[i].queued.origin.Heartbeat? ::
      i > 0 && wire[i].time >= wire[i - 1].time + SERVER_POLL_DELAY
  }

  ghost predicate BeatDue(w: World, c: Client) {
    && c.desk.ticks > 0
    && w.clock(c.desk.ticks - 1) >= c.lastSent + SERVER_POLL_DELAY
  }

  /** A heartbeat still queued is due: the clock was read the delay or more after the last request. */
  ghost predicate Paced(w: World, c: Client) {
    && Spaced(c.journal.wire)
    && (c.journal.wire != [] ==> c.lastSent == c.journal.wire[|c.journal.wire| - 1].time)
    && (c.state.Polling? || c.state.Waiting? ==> c.journal.wire != [])
    && forall i | 0 <= i < |c.desk.outbox| && c.desk.outbox[i].origin.Heartbeat? ::
      BeatDue(w, c) && c.journal.wire != []
  }

  /** A heartbeat in a batch is all there is in it, and goes out the delay or more after the last request. */
  lemma BeatGoesOutLate(w: World, c: Client, batch: Batch, k: nat)
    requires Monotone(w) && Paced(w, c) && Lone(c.desk.outbox) && k < |batch.sent|
    requires Queueds(batch.sent) + batch.dropped == c.desk.outbox
    requires batch.sent[k] == AttemptAt(w, c, batch.sent[k].queued, k) && batch.sent[k].queued.origin.Heartbeat?
    ensures k == 0 && c.journal.wire != [] && batch.sent[k].time >= c.lastSent + SERVER_POLL_DELAY
  {
    assert c.desk.outbox[k] == Queueds(batch.sent)[k] == batch.sent[k].queued;
    assert |c.desk.outbox| == 1 && BeatDue(w, c);
    assert w.clock(c.desk.ticks - 1) <= w.clock(c.desk.ticks);
  }

  lemma SpacedSend(w: World, c: Client, batch: Batch)
    requires Monotone(w) && Paced(w, c) && Lone(c.desk.outbox)
    requires Queueds(batch.sent) + batch.dropped == c.desk.outbox
    requires forall i | 0 <= i < |batch.sent| :: batch.sent[i] == AttemptAt(w, c, batch.sent[i].queued, i)
    ensures Spaced(c.journal.wire + batch.sent)
  {
    hide AttemptAt, Monotone, Lone, BeatDue, Queueds;
    var before := |c.journal.wire|;
    var wire := c.journal.wire + batch.sent;
    forall i | 0 <= i < |wire| && wire[i].queued.origin.Heartbeat?
      ensures i > 0 && wire[i].time >= wire[i - 1].time + SERVER_POLL_DELAY
    {
      if i >= before {
        assert wire[i] == batch.sent[i - before];
        BeatGoesOutLate(w, c, batch, i - before);
      }
    }
  }

  lemma PacedBySend(w: World, c: Client, c': Client, batch: Batch)
    requires Monotone(w) && Paced(w, c) && Lone(c.desk.outbox) && Sends(w, c, c', batch)
    ensures Paced(w, c')
  {
    SpacedSend(w, c, batch);
  }

  lemma PacedByPoll(w: World, c: Client, c': Client, calls: seq<Call>, produced: seq<Queued>)
    requires HealthKnown(c.desk) && c.state.Polling? && c.desk.outbox == []
    requires Paced(w, c) && Polls(w, c, c', calls, produced)
    ensures Paced(w, c')
  {
  }

  lemma PacedStep(w: World, c: Client, c': Client, move: Move)
    requires Monotone(w) && Coupled(c) && Identity(w, c) && Solo(c) && Paced(w, c) && Moves(w, c, c', move)
    ensures Paced(w, c')
  {
    hide Polls, Sends, InitialStatus;
    if c.state.Sending? {
      PacedBySend(w, c, c', move.batch);
    } else if c.state.Polling? {
      PacedByPoll(w, c, c', move.calls, move.produced);
    }
  }

  lemma PacedAtFirst(w: World)
    ensures Paced(w, Run(w, 0))
  {
    assert Run(w, 0) == Initial();
  }

  lemma {:induction false} PacedHolds(w: World, n: nat)
    requires Monotone(w)
    ensures Paced(w, Run(w, n))
  {
    hide Run, Monotone, Identity, Solo, Paced, Moves;
    if n == 0 {
      PacedAtFirst(w);
    } else {
      PacedHolds(w, n - 1);
      SoloHolds(w, n - 1);
      IdentityHolds(w, n - 1);
      var move := RunMoves(w, n - 1);
      PacedStep(w, Run(w, n - 1), Run(w, n), move);
    }
  }

  /** A heartbeat goes out 30 seconds or more after the request before it. */
  lemma HeartbeatSpacing(w: World, n: nat, i: nat)
    requires Monotone(w)
    requires i < |Run(w, n).journal.wire| && Run(w, n).journal.wire[i].queued.origin.Heartbeat?
    ensures var wire := Run(w, n).journal.wire;
      i > 0 && wire[i].time >= wire[i - 1].time + 30_000_000_000
  {
    PacedHolds(w, n);
  }

  /** A heartbeat is alone in its batch. */
  lemma HeartbeatAlone(w: World, n: nat, k: nat, i: nat)
    requires k < |Run(w, n).journal.batches|
    requires i < |Run(w, n).journal.batches[k].sent|
    requires Run(w, n).journal.batches[k].sent[i].queued.origin.Heartbeat?
    ensures var batch := Run(w, n).journal.batches[k];
      |batch.sent| == 1 && batch.dropped == []
  {
    SoloHolds(w, n);
    var batch := Run(w, n).journal.batches[k];
    assert Taken(batch)[i] == batch.sent[i].queued;
  }

  /** A healthy client that polls queues a heartbeat exactly when it has been idle for the delay. */
  lemma HeartbeatFires(w: World, c: Client)
    requires Coupled(c) && c.state.Polling? && Healthy(c.desk)
    ensures var c' := HttpModel.Trigger(w, c);
      var idle := w.clock(c.desk.ticks + 1) >= c.lastSent + SERVER_POLL_DELAY;
      && (idle <==> exists q :: q in c'.desk.outbox && q.origin.Heartbeat?)
      && (idle ==>
            && c'.state.Sending?
            && c'.desk.outbox ==
               [Queued(Heartbeat, AgentToServer(w.instanceId, 0, 0, 0, None, None, None, None, None, None))])
  {
    var calls, produced := TriggerPolls(w, c);
    hide HttpModel.Trigger;
    var c' := HttpModel.Trigger(w, c);
    if KindOf(w, c) == Beats {
      assert c'.desk.outbox[0].origin.Heartbeat?;
    }
  }
}
