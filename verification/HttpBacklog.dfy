/**
 A client kept busy: if every message processed is answered, which replies are ever processed at all.
 */
module HttpBacklog {
  import opened Wrappers
  import opened Messages
  import opened Surroundings
  import opened Sessions
  import opened HttpModel
  import opened HttpSteps
  import opened HttpRuns
  import opened HttpMetronome
  import opened HttpOpening
  import opened HttpProgress
  import opened HttpService
  import opened Plans

  // ---- What lies below the top stays ----

  /** on_loop always has something to say. */
  ghost predicate Talkative(w: World) {
    forall calls: seq<Call> | calls != [] && calls[|calls| - 1] == OnLoop ::
      w.reply(calls).Answered? && w.reply(calls).value.Some?
  }

  lemma {:induction false} TalkativePlan(w: World, status: AgentToServer, calls: seq<Call>, plan: seq<Action>)
    requires Talkative(w)
    ensures Produced(w, status, calls, plan + [Ask(OnLoop)]) != []
    decreases |plan|
  {
    if plan == [] {
      assert plan + [Ask(OnLoop)] == [Ask(OnLoop)];
      var asked := calls + [OnLoop];
      assert asked[|asked| - 1] == OnLoop;
    } else {
      TalkativePlan(w, status, calls + CallOf(plan[0]), plan[1..]);
      assert (plan + [Ask(OnLoop)])[1..] == plan[1..] + [Ask(OnLoop)];
    }
  }

  lemma TalkativeService(w: World, c: Client)
    requires Coupled(c) && c.state.Polling? && KindOf(w, c) == Serves && Talkative(w)
    ensures HttpModel.Trigger(w, c).state.Sending?
  {
    hide Plan, CallsOf, Produced, ProcessTop, ReportHealth, Talkative;
    PollAccount(w, c);
    TalkativePlan(w, c.desk.agentState.value, c.desk.calls, Plan(w.instanceId, c.inbox[|c.inbox| - 1]));
  }

  /** These messages lie in the inbox, with something on top of them unless the client is just about to send. */
  predicate Buried(c: Client, below: seq<ServerToAgent>) {
    && !Opening(c.state)
    && below <= c.inbox
    && (!c.state.Sending? ==> |below| < |c.inbox|)
  }

  lemma {:induction false} RepliesInOrder(sent: seq<Attempt>)
    requires forall i | 0 <= i < |sent| :: sent[i].result.Delivered?
    ensures |Replies(sent)| == |sent|
    ensures forall i | 0 <= i < |sent| :: Replies(sent)[i] == sent[i].result.reply
  {
    if sent != [] {
      RepliesInOrder(sent[..|sent| - 1]);
    }
  }

  /** With nothing failing, a send puts one reply on the stack for each queued message. */
  lemma SendStacks(w: World, c: Client, c': Client, batch: Batch)
    requires NoFailures(w) && Sends(w, c, c', batch)
    ensures c'.state.Waiting? && c'.inbox == c.inbox + Replies(batch.sent)
    ensures |Replies(batch.sent)| == |batch.sent| == |c.desk.outbox| > 0
  {
    hide NoFailures, Replies;
    AllDelivered(w, c, c', batch);
    RepliesInOrder(batch.sent);
    assert |Queueds(batch.sent) + batch.dropped| == |c.desk.outbox|;
  }

  lemma StackedReply(w: World, c: Client, c': Client, batch: Batch, i: nat)
    requires NoFailures(w) && Sends(w, c, c', batch) && i < |c.desk.outbox|
    ensures |c'.inbox| == |c.inbox| + |c.desk.outbox| && Delivered(c'.inbox[|c.inbox| + i]) == w.post(c.posts + i)
  {
    hide NoFailures, Sends;
    SendStacks(w, c, c', batch);
    AllDelivered(w, c, c', batch);
    RepliesInOrder(batch.sent);
    assert batch.sent[i].result == w.post(c.posts + i);
  }

  lemma PollLeavesBuried(w: World, c: Client, c': Client, below: seq<ServerToAgent>, move: Move)
    requires Coupled(c) && c.state.Polling? && Moves(w, c, c', move) && Buried(c, below)
    requires KindOf(w, c) == Serves ==> c'.state.Sending?
    ensures Buried(c', below)
  {
  }

  lemma StaysBuriedStep(w: World, n: nat, below: seq<ServerToAgent>)
    requires Talkative(w) && NoFailures(w) && Buried(Run(w, n), below)
    ensures Buried(Run(w, n + 1), below)
  {
    hide Run, HttpModel.Trigger, Polls, Sends, Talkative, NoFailures;
    var c, c' := Run(w, n), Run(w, n + 1);
    var move := RunMoves(w, n);
    if c.state.Polling? {
      if KindOf(w, c) == Serves {
        TalkativeService(w, c);
        RunTriggers(w, n);
      }
      PollLeavesBuried(w, c, c', below, move);
    } else if c.state.Sending? {
      SendStacks(w, c, c', move.batch);
    }
  }

  lemma {:induction false} StaysBuried(w: World, m: nat, n: nat, below: seq<ServerToAgent>)
    requires Talkative(w) && NoFailures(w) && m <= n && Buried(Run(w, m), below)
    ensures Buried(Run(w, n), below)
    decreases n - m
  {
    hide Run, Talkative, NoFailures, Buried;
    if m < n {
      StaysBuriedStep(w, m, below);
      StaysBuried(w, m + 1, n, below);
    }
  }

  /** A batch goes on the stack in order, and all of it but the last reply is buried from the start. */
  lemma BatchIsStacked(w: World, m: nat)
    requires NoFailures(w) && Run(w, m).state.Sending?
    ensures var sending, sent := Run(w, m), Run(w, m + 1);
      && sent.state.Waiting? && |sent.inbox| == |sending.inbox| + |sending.desk.outbox| && |sending.desk.outbox| > 0
      && sending.inbox <= sent.inbox
      && Buried(sent, sent.inbox[..|sent.inbox| - 1])
  {
    hide Run, NoFailures, Sends;
    var move := RunMoves(w, m);
    SendStacks(w, Run(w, m), Run(w, m + 1), move.batch);
  }

  /**
   If nothing fails and every processed message is answered, the reply to every message of a batch but the last
   stays in the inbox for good, however often the client is polled; and so does all that lay there before.
   */
  lemma BuriedForGood(w: World, m: nat, n: nat, i: nat)
    requires Talkative(w) && NoFailures(w) && m < n
    requires Run(w, m).state.Sending? && i + 1 < |Run(w, m).desk.outbox|
    ensures var sending, later := Run(w, m), Run(w, n);
      && sending.inbox <= later.inbox && |later.inbox| > |sending.inbox| + i
      && Delivered(later.inbox[|sending.inbox| + i]) == w.post(sending.posts + i)
  {
    hide Run, Talkative, NoFailures, Sends;
    var move := RunMoves(w, m);
    StackedReply(w, Run(w, m), Run(w, m + 1), move.batch, i);
    BatchIsStacked(w, m);
    var below := Run(w, m + 1).inbox[..|Run(w, m + 1).inbox| - 1];
    StaysBuried(w, m + 1, n, below);
    assert Run(w, n).inbox[|Run(w, m).inbox| + i] == below[|Run(w, m).inbox| + i];
  }

  // ---- Exactly which replies are processed ----

  /** The reply to message i of the batch sent at trigger m is taken off the stack at some time. */
  ghost predicate EverTaken(w: World, m: nat, i: nat) {
    exists n: nat :: n > m && |Run(w, n).inbox| <= |Run(w, m).inbox| + i
  }

  /** At trigger m + 2 the client of a successful send looks at the inbox, being healthy and not idle for too long. */
  ghost predicate LooksInTime(w: World, m: nat) {
    && Healthy(Run(w, m).desk)
    && w.clock(Run(w, m + 1).desk.ticks + 1) < Run(w, m + 1).lastSent + SERVER_POLL_DELAY
  }

  lemma TakenInTime(w: World, m: nat)
    requires NoFailures(w) && Run(w, m).state.Sending? && LooksInTime(w, m)
    ensures |Run(w, m).desk.outbox| > 0 && EverTaken(w, m, |Run(w, m).desk.outbox| - 1)
  {
    hide Run, NoFailures;
    BatchIsStacked(w, m);
    TwoTriggersLater(w, m);
    assert |Run(w, m + 3).inbox| <= |Run(w, m).inbox| + (|Run(w, m).desk.outbox| - 1);
  }

  lemma UnservedPoll(w: World, c: Client, c': Client, move: Move)
    requires Coupled(c) && c.state.Polling? && c.inbox != [] && KindOf(w, c) != Serves && Moves(w, c, c', move)
    ensures c'.state.Sending? && c'.inbox == c.inbox
  {
  }

  /** If the client does not look in time, it next sends, and by then all replies it has are below others. */
  lemma MissedIsBuried(w: World, m: nat)
    requires NoFailures(w) && Run(w, m).state.Sending? && !LooksInTime(w, m)
    ensures var sent := Run(w, m + 1);
      Run(w, m + 2).inbox == sent.inbox && Buried(Run(w, m + 3), sent.inbox)
  {
    hide Run, NoFailures, Moves;
    BatchIsStacked(w, m);
    BackToPolling(w, m);
    var move := RunMoves(w, m + 2);
    UnservedPoll(w, Run(w, m + 2), Run(w, m + 3), move);
  }

  lemma MissedStays(w: World, m: nat, n: nat)
    requires Talkative(w) && NoFailures(w) && Run(w, m).state.Sending? && !LooksInTime(w, m) && n > m
    ensures |Run(w, n).inbox| >= |Run(w, m + 1).inbox|
  {
    hide Run, Talkative, NoFailures, LooksInTime;
    MissedIsBuried(w, m);
    if n >= m + 3 {
      StaysBuried(w, m + 3, n, Run(w, m + 1).inbox);
    }
  }

  /**
   With nothing failing and every processed message answered, a reply is ever processed if and only if it answers the
   last message of its batch and the client, healthy when it sent that batch, looks at its inbox in time. So the reply
   to the handshake never is: its batch is sent by a client not yet healthy.
   */
  lemma ServedIff(w: World, m: nat, i: nat)
    requires Talkative(w) && NoFailures(w) && Run(w, m).state.Sending? && i < |Run(w, m).desk.outbox|
    ensures EverTaken(w, m, i) <==>
            i + 1 == |Run(w, m).desk.outbox| && Healthy(Run(w, m).desk) &&
            w.clock(Run(w, m + 1).desk.ticks + 1) < Run(w, m + 1).lastSent + SERVER_POLL_DELAY
  {
    hide Run, Talkative, NoFailures;
    if i + 1 < |Run(w, m).desk.outbox| {
      forall n: nat | n > m
        ensures |Run(w, n).inbox| > |Run(w, m).inbox| + i
      {
        BuriedForGood(w, m, n, i);
      }
    } else if LooksInTime(w, m) {
      TakenInTime(w, m);
    } else {
      BatchIsStacked(w, m);
      forall n: nat | n > m
        ensures |Run(w, n).inbox| > |Run(w, m).inbox| + i
      {
        MissedStays(w, m, n);
      }
    }
  }

  lemma HandshakeIsNext(w: World, k: nat)
    requires (forall i: nat | i < k :: !Present(w.head(i))) && Present(w.head(k))
    ensures var c := Run(w, 2 * k + 3);
      c.state.Sending? && !Healthy(c.desk) && |c.desk.outbox| == 1 && c.inbox == [] && c.posts == 0
  {
    hide Run;
    ConnectsAt(w, k);
    IdentityHolds(w, 2 * k + 2);
    var move := RunMoves(w, 2 * k + 2);
  }

  /**
   The handshake goes out two triggers after the first HEAD that finds the server; from then on its reply lies at the
   bottom of the inbox for good.
   */
  lemma HandshakeReplyStays(w: World, k: nat, n: nat)
    requires (forall i: nat | i < k :: !Present(w.head(i))) && Present(w.head(k))
    requires Talkative(w) && NoFailures(w) && n >= 2 * k + 4
    ensures Run(w, n).inbox != [] && Delivered(Run(w, n).inbox[0]) == w.post(0)
  {
    hide Run, Talkative, NoFailures, Sends;
    var m := 2 * k + 3;
    HandshakeIsNext(w, k);
    var move := RunMoves(w, m);
    StackedReply(w, Run(w, m), Run(w, m + 1), move.batch, 0);
    MissedIsBuried(w, m);
    if n >= m + 3 {
      StaysBuried(w, m + 3, n, Run(w, m + 1).inbox);
      assert Run(w, m + 1).inbox[0] == Run(w, n).inbox[0];
    }
  }

  // ---- A run in which a reply is buried in the middle ----

  const COMMAND := ServerToAgent("", 0, Some(""), None, None, None, None)

  /** Time stands still, the server is there and answers everything with a command, and every callback answers. */
  function BusyWorld(): World {
    World("", "", 0, (k: nat) => 0, (k: nat) => Status(200), (k: nat) => Delivered(COMMAND),
      (k: nat) => Unusable, (calls: seq<Call>) => Answered(None), (calls: seq<Call>) => (0, 0),
      (calls: seq<Call>) => Answered(Some(DEFAULT_MESSAGE)))
  }

  lemma BusyWorldIsBusy(w: World)
    requires w == BusyWorld()
    ensures Talkative(w) && NoFailures(w) && Metronomic(w, 0)
    ensures forall k: nat :: w.clock(k) == 0 && w.post(k) == Delivered(COMMAND)
  {
  }

  lemma CommandPlan(instanceId: string)
    ensures Plan(instanceId, COMMAND) == [Ask(OnCommand(COMMAND))]
  {
    assert REPORT_FULL_STATE == 1;
  }

  /** The command and on_loop are answered with one message each. */
  lemma TwoAnswers(status: AgentToServer, calls: seq<Call>)
    ensures |Produced(BusyWorld(), status, calls, ServePlan(BusyWorld(), COMMAND))| == 2
  {
    CommandPlan("");
    var loop := [Ask(OnLoop)];
    assert ServePlan(BusyWorld(), COMMAND) == [Ask(OnCommand(COMMAND))] + loop;
    assert ([Ask(OnCommand(COMMAND))] + loop)[1..] == loop && loop[1..] == [];
  }

  lemma ServesTwo(c: Client)
    requires Coupled(c) && c.state.Polling? && KindOf(BusyWorld(), c) == Serves && c.inbox[|c.inbox| - 1] == COMMAND
    ensures var c' := HttpModel.Trigger(BusyWorld(), c);
      && c'.state.Sending? && |c'.desk.outbox| == 2 && c'.inbox == c.inbox[..|c.inbox| - 1]
      && c'.desk.agentState == c.desk.agentState
  {
    hide BusyWorld, Plan, CallsOf, Produced, ServePlan, ProcessTop, ReportHealth;
    PollAccount(BusyWorld(), c);
    TwoAnswers(c.desk.agentState.value, c.desk.calls);
  }

  lemma BusyWorldSendsTwo(w: World)
    requires w == BusyWorld()
    ensures var c := Run(w, 9);
      c.state.Sending? && Healthy(c.desk) && |c.desk.outbox| == 2
  {
    BusyWorldIsBusy(w);
    KeepsTime(w, 0, 8);
    IdleCheckOnBeat(w, 0, 8);
    hide BusyWorld, Run, Talkative, NoFailures, Metronomic, HttpModel.Trigger;
    var c := Run(w, 8);
    var k := InboxFromServer(w, 8, c.inbox[|c.inbox| - 1]);
    ServesTwo(c);
    RunTriggers(w, 8);
  }

  lemma StampIsPast(w: World, m: nat) returns (stamp: nat)
    requires NoFailures(w) && Run(w, m).state.Sending?
    ensures Run(w, m + 1).lastSent == w.clock(stamp)
  {
    hide Run, NoFailures;
    SendSucceeds(w, m);
    BackToPolling(w, m);
    stamp := Run(w, m + 1).desk.ticks - 1;
  }

  /** Trigger 9 of the busy world sends two messages: the first one's reply is never processed, the second one's is. */
  lemma BusyWorldBuries(w: World)
    requires w == BusyWorld()
    ensures Talkative(w) && NoFailures(w)
    ensures Run(w, 9).state.Sending? && |Run(w, 9).desk.outbox| == 2
    ensures !EverTaken(w, 9, 0) && EverTaken(w, 9, 1)
  {
    hide Run, Talkative, NoFailures, Metronomic, EverTaken;
    BusyWorldIsBusy(w);
    BusyWorldSendsTwo(w);
    hide BusyWorld;
    ServedIff(w, 9, 0);
    ServedIff(w, 9, 1);
    var stamp := StampIsPast(w, 9);
  }
}
