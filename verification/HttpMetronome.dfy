/**
 An embedder that polls like a metronome, to a server that answers every request at once.
 */
module HttpMetronome {
  import opened Wrappers
  import opened Messages
  import opened Surroundings
  import opened Sessions
  import opened HttpModel
  import opened HttpSteps
  import opened HttpRuns
  import opened HttpOpening
  import opened HttpLedger
  import opened HttpService
  import opened HttpDrain
  import opened Plans

  // ---- A client that sends one message every three triggers ----

  /**
   How many clock readings come before trigger n: one for the handshake, then one for each send, one for the
   health report and two for each later poll.
   */
  function Readings(n: nat): nat {
    if n <= 2 then 0
    else if n == 3 then 1
    else if n <= 5 then 2
    else if n % 3 == 2 then n - 4
    else n - 3
  }

  /** The trigger that takes reading k. */
  function TakenBy(k: nat): nat {
    if k < 2 then k + 2 else if k % 3 == 1 then k + 4 else k + 3
  }

  lemma TakenDuring(n: nat, k: nat)
    requires Readings(n) <= k < Readings(n + 1)
    ensures TakenBy(k) == n
  {
  }

  /** Trigger n happens at n periods, in no time; the server is there and answers everything. */
  ghost predicate Metronomic(w: World, period: nat) {
    && (forall k: nat :: w.clock(k) == TakenBy(k) * period)
    && NoFailures(w)
    && w.head(0).Status? && w.head(0).code != 404
  }

  /** on_loop always answers and no other callback ever does; the server never asks for this agent's full state. */
  ghost predicate Obliging(w: World) {
    && (forall calls: seq<Call> | calls != [] ::
      w.reply(calls).Answered? && (w.reply(calls).value.Some? <==> calls[|calls| - 1] == OnLoop))
    && forall k: nat | w.post(k).Delivered? :: !AsksThisAgent(w, w.post(k).reply)
  }

  /** Polls slow enough for a heartbeat each time, or each answered once: every poll leads to one message sent. */
  ghost predicate Steady(w: World, period: nat) {
    Metronomic(w, period) && (period >= 15_000_000_000 || Obliging(w))
  }

  /** How many sends come before trigger n: triggers 3, 6, 9, ... send. */
  function SentBefore(n: nat): nat {
    if n == 0 then 0 else (n - 1) / 3
  }

  /** How many messages are processed before trigger n: at short periods one each at triggers 8, 11, 14, ... */
  function ShownBefore(period: nat, n: nat): nat {
    if period >= 15_000_000_000 || n < 6 then 0 else (n - 6) / 3
  }

  /** Where the client is before trigger n. */
  ghost predicate OnBeat(w: World, period: nat, n: nat) {
    var c := Run(w, n);
    && Ticks(w, n) == Readings(n)
    && |c.journal.processed| == ShownBefore(period, n)
    && |c.inbox| == SentBefore(n) - ShownBefore(period, n)
    && (Healthy(c.desk) <==> n >= 6)
    && if n == 0 then c.state.Disconnected? && c.heads == 0
       else if n == 1 then c.state.Connecting? && c.heads == 0
       else if n == 2 then c.state.Connected?
       else if n % 3 == 0 then c.state.Sending? && |c.desk.outbox| == 1
       else if n % 3 == 1 then c.state.Waiting? && c.lastSent == (n - 1) * period
       else c.state.Polling? && c.lastSent == (n - 2) * period
  }

  lemma StartsOnBeat(w: World, period: nat)
    ensures OnBeat(w, period, 0)
  {
    assert Run(w, 0) == Initial();
  }

  lemma ConnectsOnBeat(w: World, period: nat, n: nat)
    requires Metronomic(w, period) && OnBeat(w, period, n) && n <= 1
    ensures OnBeat(w, period, n + 1)
  {
    hide Run;
    var move := RunMoves(w, n);
  }

  lemma ShakesOnBeat(w: World, period: nat)
    requires OnBeat(w, period, 2)
    ensures OnBeat(w, period, 3)
  {
    hide Run;
    IdentityHolds(w, 2);
    var move := RunMoves(w, 2);
  }

  lemma SendsOne(w: World, c: Client, c': Client, batch: Batch)
    requires Sends(w, c, c', batch) && |c.desk.outbox| == 1 && NoFailures(w)
    ensures c'.state.Waiting? && c'.desk.agentState == c.desk.agentState
    ensures c'.desk.ticks == c.desk.ticks + 1 && c'.lastSent == w.clock(c.desk.ticks)
    ensures |c'.inbox| == |c.inbox| + 1 && c'.journal.processed == c.journal.processed
  {
    OneMore(w, c, c', batch);
    BatchTimes(w, c, c', batch);
    assert |Queueds(batch.sent) + batch.dropped| == 1;
  }

  lemma SendsOnBeat(w: World, period: nat, n: nat)
    requires Metronomic(w, period) && OnBeat(w, period, n) && n >= 3 && n % 3 == 0
    ensures OnBeat(w, period, n + 1)
  {
    hide Run, Sends;
    var move := RunMoves(w, n);
    SendsOne(w, Run(w, n), Run(w, n + 1), move.batch);
    TakenDuring(n, Readings(n));
  }

  lemma WaitsOnBeat(w: World, period: nat, n: nat)
    requires OnBeat(w, period, n) && n >= 3 && n % 3 == 1
    ensures OnBeat(w, period, n + 1)
  {
    hide Run;
    var move := RunMoves(w, n);
  }

  lemma ReportsOrBeats(w: World, c: Client, c': Client, move: Move)
    requires Coupled(c) && c.state.Polling? && Moves(w, c, c', move)
    requires Healthy(c.desk) ==> w.clock(c.desk.ticks + 1) >= c.lastSent + SERVER_POLL_DELAY
    ensures c'.state.Sending? && |c'.desk.outbox| == 1 && Healthy(c'.desk)
    ensures c'.desk.ticks == c.desk.ticks + if Healthy(c.desk) then 2 else 1
    ensures c'.inbox == c.inbox && c'.journal.processed == c.journal.processed
  {
  }

  lemma ObligingAct(w: World, status: AgentToServer, calls: seq<Call>, action: Action)
    requires Obliging(w) && action != ReportSelf
    ensures |ProducedBy(w, status, calls, action)| == if action == Ask(OnLoop) then 1 else 0
  {
    assert (calls + [action.call])[|calls|] == action.call;
  }

  lemma {:induction false} ObligingPlan(w: World, status: AgentToServer, calls: seq<Call>, plan: seq<Action>)
    requires Obliging(w) && OnLoop !in CallsOf(plan) && LeavesSelf(plan)
    ensures |Produced(w, status, calls, plan + [Ask(OnLoop)])| == 1
    decreases |plan|
  {
    hide Obliging, ProducedBy;
    if plan == [] {
      assert plan + [Ask(OnLoop)] == [Ask(OnLoop)] && [Ask(OnLoop)][1..] == [];
      ObligingAct(w, status, calls, Ask(OnLoop));
    } else {
      assert (plan + [Ask(OnLoop)])[1..] == plan[1..] + [Ask(OnLoop)];
      assert plan[0] != ReportSelf && CallsOf(plan)[0] == plan[0].call;
      ObligingAct(w, status, calls, plan[0]);
      ObligingPlan(w, status, calls + CallOf(plan[0]), plan[1..]);
    }
  }

  /** An obliging embedder's answer to one message is one message. */
  lemma ObligingService(w: World, c: Client)
    requires Coupled(c) && c.state.Polling? && KindOf(w, c) == Serves
    requires Obliging(w) && !AsksThisAgent(w, c.inbox[|c.inbox| - 1])
    ensures var c' := HttpModel.Trigger(w, c);
      && c'.state.Sending? && |c'.desk.outbox| == 1 && Healthy(c'.desk) && c'.desk.ticks == c.desk.ticks + 2
      && |c'.inbox| == |c.inbox| - 1 && |c'.journal.processed| == |c.journal.processed| + 1
  {
    hide Plan, CallsOf, Produced, ServePlan, ProcessTop, ReportHealth, Obliging, LeavesSelf;
    PollAccount(w, c);
    ObligingAnswer(w, c.desk.agentState.value, c.desk.calls, c.inbox[|c.inbox| - 1]);
  }

  lemma ObligingAnswer(w: World, status: AgentToServer, calls: seq<Call>, msg: ServerToAgent)
    requires Obliging(w) && !AsksThisAgent(w, msg)
    ensures |Produced(w, status, calls, ServePlan(w, msg))| == 1
  {
    PlannedCalls(w.instanceId, msg);
    PlanLeavesSelf(w, msg);
    hide Plan, Obliging;
    ObligingPlan(w, status, calls, Plan(w.instanceId, msg));
  }

  lemma {:induction false} ReplyOnWire(sent: seq<Attempt>, msg: ServerToAgent) returns (i: nat)
    requires msg in Replies(sent)
    ensures i < |sent| && sent[i].result == Delivered(msg)
  {
    var last := |sent| - 1;
    if msg in Replies(sent[..last]) {
      i := ReplyOnWire(sent[..last], msg);
    } else {
      i := last;
    }
  }

  /** Whatever lies in the inbox came in answer to some request. */
  lemma InboxFromServer(w: World, n: nat, msg: ServerToAgent) returns (k: nat)
    requires msg in Run(w, n).inbox
    ensures w.post(k) == Delivered(msg)
  {
    BooksBalance(w, n);
    hide Run;
    var c := Run(w, n);
    assert msg in multiset(c.inbox) && msg in multiset(c.journal.received);
    k := ReplyOnWire(c.journal.wire, msg);
  }

  lemma TwoPeriods(n: nat, period: nat)
    requires n >= 2
    ensures n * period == (n - 2) * period + 2 * period
  {
  }

  /** The idle check of a poll on the beat is two periods after the last request. */
  lemma IdleCheckOnBeat(w: World, period: nat, n: nat)
    requires Metronomic(w, period) && OnBeat(w, period, n) && n >= 8 && n % 3 == 2
    ensures w.clock(Run(w, n).desk.ticks + 1) == Run(w, n).lastSent + 2 * period
  {
    hide Run;
    TakenDuring(n, Readings(n) + 1);
    TwoPeriods(n, period);
  }

  lemma BeatsOnBeat(w: World, period: nat, n: nat)
    requires Metronomic(w, period) && OnBeat(w, period, n) && n >= 3 && n % 3 == 2
    requires n < 6 || period >= 15_000_000_000
    ensures OnBeat(w, period, n + 1)
  {
    hide Run, Moves;
    var move := RunMoves(w, n);
    if n >= 6 {
      IdleCheckOnBeat(w, period, n);
    }
    ReportsOrBeats(w, Run(w, n), Run(w, n + 1), move);
  }

  lemma ServesOnBeat(w: World, period: nat, n: nat)
    requires Steady(w, period) && OnBeat(w, period, n) && n >= 6 && n % 3 == 2 && period < 15_000_000_000
    ensures OnBeat(w, period, n + 1)
  {
    hide Run, HttpModel.Trigger;
    var c := Run(w, n);
    IdleCheckOnBeat(w, period, n);
    var k := InboxFromServer(w, n, c.inbox[|c.inbox| - 1]);
    ObligingService(w, c);
    RunTriggers(w, n);
  }

  /** What the callbacks answer begins to matter only at trigger 8, the first that may show them a message. */
  lemma {:induction false} KeepsTime(w: World, period: nat, n: nat)
    requires Metronomic(w, period) && (n <= 8 || Steady(w, period))
    ensures OnBeat(w, period, n)
  {
    hide OnBeat, Metronomic;
    if n == 0 {
      StartsOnBeat(w, period);
    } else {
      KeepsTime(w, period, n - 1);
      if n <= 2 {
        ConnectsOnBeat(w, period, n - 1);
      } else if n == 3 {
        ShakesOnBeat(w, period);
      } else if n % 3 == 1 {
        SendsOnBeat(w, period, n - 1);
      } else if n % 3 == 2 {
        WaitsOnBeat(w, period, n - 1);
      } else if n <= 6 || period >= 15_000_000_000 {
        BeatsOnBeat(w, period, n - 1);
      } else {
        ServesOnBeat(w, period, n - 1);
      }
    }
  }

  /** At each later poll of a steady run: how much was processed by then, and how much is left. */
  lemma SteadyCounts(w: World, period: nat, k: nat)
    requires Steady(w, period)
    ensures var c, fast := Run(w, 8 + 3 * k), period < 15_000_000_000;
      && c.state.Polling? && Healthy(c.desk)
      && |c.journal.processed| == (if fast then k else 0)
      && |c.inbox| == (if fast then 2 else 2 + k)
  {
    hide Run, Metronomic, Obliging;
    KeepsTime(w, period, 8 + 3 * k);
  }

  lemma MetronomeAnswers(w: World, period: nat)
    requires Metronomic(w, period)
    ensures NoFailures(w)
  {
  }

  // ---- Half the poll delay or more: nothing is ever processed ----

  /** Every trigger starts within this time of the start of the one before it. */
  ghost predicate Regular(begin: nat -> nat, apart: nat) {
    forall n: nat :: begin(n + 1) <= begin(n) + apart
  }

  function Beat(period: nat): nat -> nat {
    (n: nat) => n * period
  }

  lemma BeatIsRegular(period: nat)
    ensures Regular(Beat(period), period)
    ensures period >= 15_000_000_000 ==> HalfDelayGaps(Beat(period), Beat(period))
  {
    forall n: nat
      ensures Beat(period)(n + 1) == Beat(period)(n) + period
    {
    }
  }

  lemma OnSchedule(w: World, period: nat)
    requires Steady(w, period)
    ensures Scheduled(w, Beat(period), Beat(period))
  {
    hide Run;
    forall n: nat
      ensures Beat(period)(n) <= Beat(period)(n + 1)
    {
      assert (n + 1) * period == n * period + period;
    }
    forall n: nat, k: nat | Ticks(w, n) <= k < Ticks(w, n + 1)
      ensures w.clock(k) == Beat(period)(n)
    {
      KeepsTime(w, period, n);
      KeepsTime(w, period, n + 1);
      TakenDuring(n, k);
    }
  }

  /**
   The period decides, at exactly half the poll delay: if triggers take no time and nothing fails, the last reply to
   a healthy client's send is processed two triggers on if and only if the period is below 15 seconds.
   */
  lemma PeriodDecides(w: World, period: nat, n: nat)
    requires Scheduled(w, Beat(period), Beat(period)) && NoFailures(w)
    requires Run(w, n).state.Sending? && Healthy(Run(w, n).desk)
    ensures var now, sent, later := Run(w, n), Run(w, n + 1), Run(w, n + 3);
      && sent.inbox != []
      && (later.journal.processed == now.journal.processed + [sent.inbox[|sent.inbox| - 1]] <==>
          period < 15_000_000_000)
  {
    hide Run, Scheduled, ReadsFrom, ReadsBy, HalfDelayGaps, NoFailures;
    BeatIsRegular(period);
    SendSucceeds(w, n);
    BackToPolling(w, n);
    if period < 15_000_000_000 {
      ReadsOnTheBeat(w, period, n);
      ReadsOnTheBeat(w, period, n + 2);
      PromptTriggersServe(w, Beat(period), period, 0, n);
    } else {
      SlowTriggersStarve(w, Beat(period), Beat(period), n + 3);
    }
  }

  lemma ReadsOnTheBeat(w: World, period: nat, n: nat)
    requires Scheduled(w, Beat(period), Beat(period))
    ensures ReadsFrom(w, n, n * period) && ReadsBy(w, n, n * period)
  {
    hide Run, Ticks;
  }

  /**
   Polled every 15 seconds or at any longer period, by a client whose requests are all answered at once, not one
   reply is ever processed: after 4 + 3k triggers all k + 1 replies are still in the inbox.
   */
  lemma MetronomeStarves(w: World, period: nat, n: nat, k: nat)
    requires Metronomic(w, period) && period >= 15_000_000_000
    ensures Scheduled(w, Beat(period), Beat(period)) && HalfDelayGaps(Beat(period), Beat(period)) && NoFailures(w)
    ensures Run(w, n).journal.processed == []
    ensures |Run(w, 4 + 3 * k).inbox| == k + 1
  {
    hide Run, Scheduled, HalfDelayGaps, Beat;
    OnSchedule(w, period);
    BeatIsRegular(period);
    SlowTriggersStarve(w, Beat(period), Beat(period), n);
    HalfDelayGapsAreSluggish(w, Beat(period), Beat(period));
    InboxGrowsForever(w, k);
  }

  /**
   The server answers every HEAD with 200 and every POST with this reply; on_loop always has a message for it, and
   the other callbacks have none.
   */
  function MetronomeWorld(period: nat, reply: ServerToAgent): World {
    World("", "", 0, (k: nat) => TakenBy(k) * period, (k: nat) => Status(200), (k: nat) => Delivered(reply),
      (k: nat) => Unusable, (calls: seq<Call>) => Answered(None), (calls: seq<Call>) => (0, 0),
      (calls: seq<Call>) =>
        Answered(if calls != [] && calls[|calls| - 1] == OnLoop then Some(DEFAULT_MESSAGE) else None))
  }

  lemma MetronomeWorldIsSteady(period: nat, reply: ServerToAgent)
    requires !AsksFullState(reply)
    ensures Metronomic(MetronomeWorld(period, reply), period) && Obliging(MetronomeWorld(period, reply))
  {
  }

  /**
   One world in which nothing but the period differs, and where all hypotheses above hold at once. Polled every 15
   seconds or more slowly, once every 30 seconds included, the client is never shown any of the replies, which pile
   up; polled any faster, it is shown one every three triggers, and two are left in the inbox: the reply to the last
   request, to be shown next, and below it the reply to the handshake, which never is (HttpBacklog.HandshakeReplyStays).
   */
  lemma MetronomeWorldDecides(w: World, period: nat, reply: ServerToAgent, k: nat)
    requires w == MetronomeWorld(period, reply) && !AsksFullState(reply)
    ensures Scheduled(w, Beat(period), Beat(period)) && Regular(Beat(period), period) && NoFailures(w)
    ensures period >= 15_000_000_000 ==> HalfDelayGaps(Beat(period), Beat(period))
    ensures var c, fast := Run(w, 8 + 3 * k), period < 15_000_000_000;
      && c.state.Polling? && Healthy(c.desk)
      && |c.journal.processed| == (if fast then k else 0)
      && |c.inbox| == (if fast then 2 else 2 + k)
  {
    MetronomeWorldIsSteady(period, reply);
    hide MetronomeWorld, Run, Metronomic, Scheduled, HalfDelayGaps, Regular, Obliging, Beat;
    OnSchedule(w, period);
    BeatIsRegular(period);
    SteadyCounts(w, period, k);
    MetronomeAnswers(w, period);
  }

  /** At no period from 15 seconds on is anything ever processed, at any trigger. */
  lemma MetronomeWorldStarves(w: World, period: nat, reply: ServerToAgent, n: nat)
    requires w == MetronomeWorld(period, reply) && !AsksFullState(reply) && period >= 15_000_000_000
    ensures Run(w, n).journal.processed == []
  {
    MetronomeWorldIsSteady(period, reply);
    hide MetronomeWorld, Run, Metronomic, Obliging;
    MetronomeStarves(w, period, n, 0);
  }
}
