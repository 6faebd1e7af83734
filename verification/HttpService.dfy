/**
 When received messages are processed: two triggers after a successful send if triggers come quickly enough,
 and never at all if they come too slowly.
 */
module HttpService {
  import opened Messages
  import opened Surroundings
  import opened Sessions
  import opened StateMachine
  import opened HttpModel
  import opened HttpSteps
  import opened HttpRuns
  import opened HttpLedger
  import opened HttpOpening

  // ---- Two triggers after a successful send ----

  lemma BatchTimes(w: World, c: Client, c': Client, batch: Batch)
    requires Sends(w, c, c', batch)
    ensures c'.desk.ticks == c.desk.ticks + |batch.sent| && |batch.sent| > 0
    ensures c'.lastSent == w.clock(c'.desk.ticks - 1)
    ensures c'.state.Waiting? ==>
      c'.inbox != [] && LatestReply(c', c'.inbox[|c'.inbox| - 1])
    ensures c'.desk.agentState == c.desk.agentState && c'.journal.processed == c.journal.processed
  {
    var last := |batch.sent| - 1;
    assert batch.sent[last] == AttemptAt(w, c, batch.sent[last].queued, last);
  }

  /**
   Two triggers after a successful send the last reply is processed, unless the client has by then been idle
   for the delay.
   */
  lemma TwoTriggersLater(w: World, n: nat)
    requires Run(w, n).state.Sending? && Healthy(Run(w, n).desk) && Run(w, n + 1).state.Waiting?
    ensures var sent, later := Run(w, n + 1), Run(w, n + 3);
      var idle := w.clock(sent.desk.ticks + 1) >= sent.lastSent + SERVER_POLL_DELAY;
      && Run(w, n + 2).state.Polling?
      && sent.inbox != [] && LatestReply(sent, sent.inbox[|sent.inbox| - 1])
      && (if idle then
            later.state.Sending? && later.inbox == sent.inbox && later.journal.processed == Run(w, n).journal.processed
          else
            later.inbox == sent.inbox[..|sent.inbox| - 1] &&
            later.journal.processed == Run(w, n).journal.processed + [sent.inbox[|sent.inbox| - 1]])
  {
    hide Run, Polls;
    BackToPolling(w, n);
    var c := Run(w, n + 2);
    var move := RunMoves(w, n + 2);
    PollWithMail(w, c, Run(w, n + 3), move.calls, move.produced);
  }

  /** A successful send leaves its last reply on top of the inbox, and one trigger later the client polls. */
  lemma BackToPolling(w: World, n: nat)
    requires Run(w, n).state.Sending? && Run(w, n + 1).state.Waiting?
    ensures var c, sent := Run(w, n), Run(w, n + 1);
      && sent.inbox != [] && LatestReply(sent, sent.inbox[|sent.inbox| - 1])
      && sent.desk.ticks > c.desk.ticks && sent.lastSent == w.clock(sent.desk.ticks - 1)
      && sent.desk.agentState == c.desk.agentState && sent.journal.processed == c.journal.processed
      && Run(w, n + 2) == sent.(state := Polling(""))
  {
    hide Run, Sends;
    var first := RunMoves(w, n);
    BatchTimes(w, Run(w, n), Run(w, n + 1), first.batch);
    var second := RunMoves(w, n + 1);
  }

  /** A healthy client with mail either beats, leaving the inbox alone, or takes the top message. */
  lemma PollWithMail(w: World, c: Client, c': Client, calls: seq<Call>, produced: seq<Queued>)
    requires Healthy(c.desk) && c.inbox != [] && Polls(w, c, c', calls, produced)
    ensures var top := |c.inbox| - 1;
      if w.clock(c.desk.ticks + 1) >= c.lastSent + SERVER_POLL_DELAY then
        c'.state.Sending? && c'.inbox == c.inbox && c'.journal.processed == c.journal.processed
      else
        c'.inbox == c.inbox[..top] && c'.journal.processed == c.journal.processed + [c.inbox[top]]
  {
  }

  /** The reply came to the last request made. */
  predicate LatestReply(c: Client, reply: ServerToAgent) {
    c.journal.wire != [] && c.journal.wire[|c.journal.wire| - 1].result == Delivered(reply)
  }

  // ---- When triggers come quickly enough ----

  /** How often the clock was read in the first n triggers. */
  ghost function Ticks(w: World, n: nat): nat {
    Run(w, n).desk.ticks
  }

  /** Trigger n and the two after it take all their clock readings within less than the poll delay. */
  ghost predicate Brisk(w: World, n: nat) {
    forall i: nat, j: nat | Ticks(w, n) <= i <= j < Ticks(w, n + 3) :: w.clock(j) < w.clock(i) + SERVER_POLL_DELAY
  }

  /** Which readings decide: the one that stamps the last request, and, two on, the idle check of the next poll. */
  lemma StampAndIdleCheck(w: World, n: nat) returns (stamp: nat)
    requires Run(w, n).state.Sending? && Healthy(Run(w, n).desk) && Run(w, n + 1).state.Waiting?
    ensures stamp + 1 == Run(w, n + 1).desk.ticks && Run(w, n + 1).lastSent == w.clock(stamp)
    ensures Run(w, n + 2).state.Polling?
    ensures Ticks(w, n) <= stamp < Ticks(w, n + 1) && Ticks(w, n + 2) <= stamp + 2 < Ticks(w, n + 3)
  {
    hide Run, Polls;
    BackToPolling(w, n);
    var move := RunMoves(w, n + 2);
    HealthyPollReadsTwice(w, Run(w, n + 2), Run(w, n + 3), move);
    stamp := Run(w, n + 1).desk.ticks - 1;
  }

  /** Every request is answered. */
  ghost predicate NoFailures(w: World) {
    forall k: nat :: w.post(k).Delivered?
  }

  lemma AllDelivered(w: World, c: Client, c': Client, batch: Batch)
    requires NoFailures(w) && Sends(w, c, c', batch)
    ensures c'.state.Waiting? && batch.dropped == []
    ensures forall i | 0 <= i < |batch.sent| ::
              batch.sent[i].result == w.post(c.posts + i) && w.post(c.posts + i).Delivered?
  {
  }

  /** With every request answered, no send fails. */
  lemma SendSucceeds(w: World, n: nat)
    requires NoFailures(w) && Run(w, n).state.Sending?
    ensures Run(w, n + 1).state.Waiting?
  {
    hide Run, Sends, NoFailures;
    var move := RunMoves(w, n);
    AllDelivered(w, Run(w, n), Run(w, n + 1), move.batch);
  }

  /** If the send and the two triggers after it are brisk, the send's last reply is processed by the second of them. */
  lemma ServiceBound(w: World, n: nat)
    requires Brisk(w, n)
    requires Run(w, n).state.Sending? && Healthy(Run(w, n).desk) && Run(w, n + 1).state.Waiting?
    ensures var sent, later := Run(w, n + 1), Run(w, n + 3);
      && sent.inbox != [] && LatestReply(sent, sent.inbox[|sent.inbox| - 1])
      && later.inbox == sent.inbox[..|sent.inbox| - 1]
      && later.journal.processed == Run(w, n).journal.processed + [sent.inbox[|sent.inbox| - 1]]
  {
    hide Run, Ticks;
    TwoTriggersLater(w, n);
    var stamp := StampAndIdleCheck(w, n);
    assert w.clock(stamp + 2) < w.clock(stamp) + SERVER_POLL_DELAY;
  }

  /** The readings of trigger n are not taken before this time. */
  ghost predicate ReadsFrom(w: World, n: nat, from: nat) {
    forall k: nat | Ticks(w, n) <= k < Ticks(w, n + 1) :: w.clock(k) >= from
  }

  /** The readings of trigger n are taken by this time. */
  ghost predicate ReadsBy(w: World, n: nat, until: nat) {
    forall k: nat | Ticks(w, n) <= k < Ticks(w, n + 1) :: w.clock(k) <= until
  }

  /**
   If a send and the two triggers after it start close enough together, the send's last reply is processed by the
   second of them, provided that one reads the clock soon after it starts. How long the requests take is left open,
   and so is all that happens before and afterwards.
   */
  lemma PromptTriggersServe(w: World, begin: nat -> nat, apart: nat, lag: nat, n: nat)
    requires begin(n + 1) <= begin(n) + apart && begin(n + 2) <= begin(n + 1) + apart
    requires ReadsFrom(w, n, begin(n)) && ReadsBy(w, n + 2, begin(n + 2) + lag)
    requires 2 * apart + lag < SERVER_POLL_DELAY
    requires Run(w, n).state.Sending? && Healthy(Run(w, n).desk) && Run(w, n + 1).state.Waiting?
    ensures var sent, later := Run(w, n + 1), Run(w, n + 3);
      && sent.inbox != [] && LatestReply(sent, sent.inbox[|sent.inbox| - 1])
      && later.inbox == sent.inbox[..|sent.inbox| - 1]
      && later.journal.processed == Run(w, n).journal.processed + [sent.inbox[|sent.inbox| - 1]]
  {
    hide Run, Ticks;
    TwoTriggersLater(w, n);
    var stamp := StampAndIdleCheck(w, n);
    assert w.clock(stamp) >= begin(n);
    assert w.clock(stamp + 2) <= begin(n + 2) + lag;
  }

  // ---- When they come too slowly ----

  /** What is read after a trigger has ended is at least the poll delay later than what was read before it began. */
  ghost predicate Sluggish(w: World) {
    forall m: nat, n: nat, i: nat, j: nat | i < Ticks(w, m) && Ticks(w, m + 1) <= j < Ticks(w, n) ::
      w.clock(j) >= w.clock(i) + SERVER_POLL_DELAY
  }

  /** Nothing was processed, and the last request is two triggers old whenever the client polls. */
  ghost predicate Starving(w: World, n: nat) {
    var c := Run(w, n);
    && c.journal.processed == []
    && (c.state.Waiting? || c.state.Polling? ==> c.desk.ticks > 0 && c.lastSent == w.clock(c.desk.ticks - 1))
    && (c.state.Polling? ==> n > 0 && Ticks(w, n - 1) == c.desk.ticks)
  }

  lemma StarvingSend(w: World, c: Client, c': Client, batch: Batch)
    requires NoFailures(w) && Sends(w, c, c', batch) && c.journal.processed == []
    ensures c'.state.Waiting? && c'.journal.processed == []
    ensures c'.desk.ticks > 0 && c'.lastSent == w.clock(c'.desk.ticks - 1)
  {
    BatchTimes(w, c, c', batch);
    AllDelivered(w, c, c', batch);
  }

  lemma StarvingPoll(w: World, c: Client, c': Client, calls: seq<Call>, produced: seq<Queued>)
    requires HealthKnown(c.desk) && Polls(w, c, c', calls, produced)
    requires Healthy(c.desk) ==> w.clock(c.desk.ticks + 1) >= c.lastSent + SERVER_POLL_DELAY
    ensures c'.state.Sending? && c'.journal.processed == c.journal.processed && c'.inbox == c.inbox
    ensures |c'.desk.outbox| == |c.desk.outbox| + 1
  {
  }

  /** In a starving run every poll is due for a report or a heartbeat, and never looks at the inbox. */
  lemma StarvedPoll(w: World, n: nat)
    requires Sluggish(w) && Starving(w, n) && Run(w, n).state.Polling?
    ensures var c, c' := Run(w, n), Run(w, n + 1);
      c'.state.Sending? && |c'.desk.outbox| == 1 && c'.inbox == c.inbox && c'.journal.processed == c.journal.processed
  {
    hide Run, Polls;
    IdentityHolds(w, n);
    hide Identity;
    var c, c' := Run(w, n), Run(w, n + 1);
    var move := RunMoves(w, n);
    if Healthy(c.desk) {
      HealthyPollReadsTwice(w, c, c', move);
      assert c.desk.ticks - 1 < Ticks(w, n - 1) && Ticks(w, n - 1 + 1) <= c.desk.ticks + 1 < Ticks(w, n + 1);
    }
    StarvingPoll(w, c, c', move.calls, move.produced);
  }

  lemma StarvingStep(w: World, n: nat)
    requires Sluggish(w) && NoFailures(w) && Starving(w, n)
    ensures Starving(w, n + 1)
  {
    hide Run, Polls, Sends, NoFailures;
    IdentityHolds(w, n);
    hide Identity;
    var c, c' := Run(w, n), Run(w, n + 1);
    if c.state.Polling? {
      StarvedPoll(w, n);
    } else {
      var move := RunMoves(w, n);
      if c.state.Sending? {
        StarvingSend(w, c, c', move.batch);
      }
    }
  }

  lemma HealthyPollReadsTwice(w: World, c: Client, c': Client, move: Move)
    requires Coupled(c) && c.state.Polling? && Healthy(c.desk) && Moves(w, c, c', move)
    ensures c'.desk.ticks == c.desk.ticks + 2
  {
  }

  lemma {:induction false} Starves(w: World, n: nat)
    requires Sluggish(w) && NoFailures(w)
    ensures Starving(w, n)
  {
    hide HttpModel.Trigger, Sluggish, NoFailures;
    if n > 0 {
      Starves(w, n - 1);
      StarvingStep(w, n - 1);
    }
  }

  /** In a sluggish run without failures no message is ever processed; all replies pile up in the inbox. */
  lemma NeverServed(w: World, n: nat)
    requires Sluggish(w) && NoFailures(w)
    ensures Run(w, n).journal.processed == [] && multiset(Run(w, n).inbox) == multiset(Run(w, n).journal.received)
  {
    Starves(w, n);
    BooksBalance(w, n);
  }

  // ---- The two conditions, said of a schedule of triggers ----

  /** Trigger n begins and ends at these times, and reads the clock only in between. */
  ghost predicate Scheduled(w: World, begin: nat -> nat, end: nat -> nat) {
    && (forall n: nat :: begin(n) <= end(n) <= begin(n + 1))
    && forall n: nat, k: nat | Ticks(w, n) <= k < Ticks(w, n + 1) :: begin(n) <= w.clock(k) <= end(n)
  }

  lemma {:induction false} ReadDuring(w: World, n: nat, k: nat) returns (m: nat)
    requires k < Ticks(w, n)
    ensures m < n && Ticks(w, m) <= k < Ticks(w, m + 1)
  {
    hide HttpModel.Trigger;
    if k >= Ticks(w, n - 1) {
      m := n - 1;
    } else {
      m := ReadDuring(w, n - 1, k);
    }
  }

  lemma {:induction false} BeginsInOrder(w: World, begin: nat -> nat, end: nat -> nat, m: nat, n: nat)
    requires Scheduled(w, begin, end) && m <= n
    ensures begin(m) <= begin(n) && end(m) <= end(n)
    decreases n - m
  {
    hide Run;
    if m < n {
      assert begin(m) <= end(m) <= begin(m + 1) <= end(m + 1);
      BeginsInOrder(w, begin, end, m + 1, n);
    }
  }

  lemma {:induction false} TicksInOrder(w: World, m: nat, n: nat)
    requires m <= n
    ensures Ticks(w, m) <= Ticks(w, n)
    decreases n - m
  {
    hide Run;
    if m < n {
      var move := RunMoves(w, m);
      TicksGrow(w, Run(w, m), Run(w, m + 1), move);
      TicksInOrder(w, m + 1, n);
    }
  }

  lemma TicksGrow(w: World, c: Client, c': Client, move: Move)
    requires Coupled(c) && Moves(w, c, c', move)
    ensures c.desk.ticks <= c'.desk.ticks
  {
  }

  lemma ReadBefore(w: World, begin: nat -> nat, end: nat -> nat, n: nat, k: nat)
    requires Scheduled(w, begin, end) && k < Ticks(w, n)
    ensures n > 0 && w.clock(k) <= end(n - 1)
  {
    hide Run;
    var m := ReadDuring(w, n, k);
    BeginsInOrder(w, begin, end, m, n - 1);
  }

  lemma ReadSince(w: World, begin: nat -> nat, end: nat -> nat, n: nat, p: nat, k: nat)
    requires Scheduled(w, begin, end) && Ticks(w, n) <= k < Ticks(w, p)
    ensures begin(n) <= w.clock(k)
  {
    hide Run;
    var m := ReadDuring(w, p, k);
    if m < n {
      TicksInOrder(w, m + 1, n);
    }
    BeginsInOrder(w, begin, end, n, m);
  }

  /** Between the end of a trigger and the start of the next there is at least half the poll delay. */
  ghost predicate HalfDelayGaps(begin: nat -> nat, end: nat -> nat) {
    forall n: nat :: 2 * begin(n + 1) >= 2 * end(n) + SERVER_POLL_DELAY
  }

  lemma TwoGaps(begin: nat -> nat, end: nat -> nat, m: nat)
    requires HalfDelayGaps(begin, end) && m > 0 && begin(m) <= end(m)
    ensures begin(m + 1) >= end(m - 1) + SERVER_POLL_DELAY
  {
    assert 2 * begin(m - 1 + 1) >= 2 * end(m - 1) + SERVER_POLL_DELAY;
    assert 2 * begin(m + 1) >= 2 * end(m) + SERVER_POLL_DELAY;
  }

  lemma ReadTwoGapsApart(w: World, begin: nat -> nat, end: nat -> nat, m: nat, n: nat, i: nat, j: nat)
    requires Scheduled(w, begin, end) && HalfDelayGaps(begin, end)
    requires i < Ticks(w, m) && Ticks(w, m + 1) <= j < Ticks(w, n)
    ensures w.clock(j) >= w.clock(i) + SERVER_POLL_DELAY
  {
    hide Run, HalfDelayGaps, Ticks;
    ReadBefore(w, begin, end, m, i);
    ReadSince(w, begin, end, m + 1, n, j);
    assert begin(m) <= end(m);
    hide Scheduled;
    TwoGaps(begin, end, m);
  }

  lemma HalfDelayGapsAreSluggish(w: World, begin: nat -> nat, end: nat -> nat)
    requires Scheduled(w, begin, end) && HalfDelayGaps(begin, end)
    ensures Sluggish(w)
  {
    hide Ticks, Scheduled, HalfDelayGaps;
    forall m: nat, n: nat, i: nat, j: nat | i < Ticks(w, m) && Ticks(w, m + 1) <= j < Ticks(w, n)
      ensures w.clock(j) >= w.clock(i) + SERVER_POLL_DELAY
    {
      ReadTwoGapsApart(w, begin, end, m, n, i, j);
    }
  }

  /** With half a poll delay or more between triggers, and no failures, no message is ever served. */
  lemma SlowTriggersStarve(w: World, begin: nat -> nat, end: nat -> nat, n: nat)
    requires Scheduled(w, begin, end) && HalfDelayGaps(begin, end) && NoFailures(w)
    ensures Run(w, n).journal.processed == [] && multiset(Run(w, n).inbox) == multiset(Run(w, n).journal.received)
  {
    hide Run;
    HalfDelayGapsAreSluggish(w, begin, end);
    NeverServed(w, n);
  }

  // ---- A sluggish run takes in one message every three triggers, and keeps them all ----

  lemma OneMore(w: World, c: Client, c': Client, batch: Batch)
    requires Sends(w, c, c', batch) && |c.desk.outbox| == 1 && NoFailures(w)
    ensures c'.state.Waiting? && |c'.inbox| == |c.inbox| + 1
  {
    assert |Queueds(batch.sent) + batch.dropped| == 1;
    AllDelivered(w, c, c', batch);
    assert batch.sent[..0] == [];
    assert Replies(batch.sent) == [batch.sent[0].result.reply];
  }

  lemma FirstReply(w: World)
    requires NoFailures(w) && w.head(0).Status? && w.head(0).code != 404
    ensures Run(w, 4).state.Waiting? && |Run(w, 4).inbox| == 1
  {
    assert Run(w, 0) == Initial();
    hide Run, NoFailures;
    var m0 := RunMoves(w, 0);
    var m1 := RunMoves(w, 1);
    var m2 := RunMoves(w, 2);
    var m3 := RunMoves(w, 3);
    OneMore(w, Run(w, 3), Run(w, 4), m3.batch);
  }

  lemma NextReply(w: World, n: nat)
    requires Sluggish(w) && NoFailures(w) && Run(w, n).state.Waiting?
    ensures Run(w, n + 3).state.Waiting? && |Run(w, n + 3).inbox| == |Run(w, n).inbox| + 1
  {
    hide Run, Sluggish, NoFailures;
    var m0 := RunMoves(w, n);
    Starves(w, n + 1);
    StarvedPoll(w, n + 1);
    hide Starving;
    var m2 := RunMoves(w, n + 2);
    OneMore(w, Run(w, n + 2), Run(w, n + 3), m2.batch);
  }

  /** After 4 + 3k triggers of such a run k + 1 replies have come in, and all of them are still in the inbox. */
  lemma {:induction false} InboxGrowsForever(w: World, k: nat)
    requires Sluggish(w) && NoFailures(w) && w.head(0).Status? && w.head(0).code != 404
    ensures var c := Run(w, 4 + 3 * k);
      c.state.Waiting? && |c.inbox| == k + 1 && c.journal.processed == []
  {
    hide Run, Sluggish, NoFailures;
    Starves(w, 4 + 3 * k);
    if k == 0 {
      FirstReply(w);
    } else {
      InboxGrowsForever(w, k - 1);
      NextReply(w, 4 + 3 * (k - 1));
    }
  }
}
