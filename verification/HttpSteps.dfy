/**
 Closed forms of poll and send: what changes in one poll of each kind, and in one send.
 */
module HttpSteps {
  import opened Wrappers
  import opened Messages
  import opened Surroundings
  import opened Sessions
  import opened StateMachine
  import opened HttpModel
  import opened Plans

  // ---- Poll ----

  /** A poll reports the client healthy, or beats after a long silence, or finds nothing to do, or serves a message. */
  datatype PollKind = Reports | Beats | Rests | Serves

  function KindOf(w: World, c: Client): PollKind {
    if !Healthy(c.desk) then Reports
    else if w.clock(c.desk.ticks + 1) >= c.lastSent + SERVER_POLL_DELAY then Beats
    else if c.inbox == [] then Rests
    else Serves
  }

  function HeartbeatMessage(w: World): AgentToServer {
    DEFAULT_MESSAGE.(instanceUid := w.instanceId)
  }

  function ServePlan(w: World, msg: ServerToAgent): seq<Action> {
    LoopPlan(Plan(w.instanceId, msg))
  }

  function ServedCalls(w: World, c: Client): seq<Call>
    requires c.inbox != []
  {
    CallsOf(ServePlan(w, c.inbox[|c.inbox| - 1]))
  }

  function Served(w: World, c: Client): seq<Queued>
    requires HealthKnown(c.desk) && c.inbox != []
  {
    Produced(w, c.desk.agentState.value, c.desk.calls, ServePlan(w, c.inbox[|c.inbox| - 1]))
  }

  /** The client once the top message was shown around: these calls were made, these messages queued. */
  function AfterServing(c: Client, calls: seq<Call>, produced: seq<Queued>): Client
    requires c.inbox != []
  {
    var top := |c.inbox| - 1;
    c.(desk := Extend(c.desk, calls, produced),
       inbox := c.inbox[..top],
       journal := c.journal.(processed := c.journal.processed + [c.inbox[top]]))
  }

  /** The clock is read for the health and then for the idle check. */
  function ReadTwice(c: Client): Client {
    c.(desk := c.desk.(ticks := c.desk.ticks + 2))
  }

  lemma ServeAccount(w: World, c: Client)
    requires HealthKnown(c.desk) && c.desk.outbox == [] && c.inbox != []
    ensures ProcessTop(w, c).0 == AfterServing(c, ServedCalls(w, c), Served(w, c))
    ensures ProcessTop(w, c).1 == if Served(w, c) == [] then Ok(Nothing) else Ok(Reply("messages pending"))
  {
    hide Plan, Served, ServedCalls, Dispatch;
    var msg := c.inbox[|c.inbox| - 1];
    DispatchFollowsPlan(w, c.desk, msg);
    ExecuteConcat(w, c.desk, Plan(w.instanceId, msg), [Ask(OnLoop)]);
    assert [Ask(OnLoop)][1..] == [];
    PlanAccount(w, c);
    assert [] + Served(w, c) == Served(w, c);
  }

  lemma PlanAccount(w: World, c: Client)
    requires HealthKnown(c.desk) && c.inbox != []
    ensures Execute(w, c.desk, ServePlan(w, c.inbox[|c.inbox| - 1])) == Extend(c.desk, ServedCalls(w, c), Served(w, c))
  {
    ExecuteAccount(w, c.desk, ServePlan(w, c.inbox[|c.inbox| - 1]));
  }

  lemma AttendAccount(w: World, c: Client)
    requires Healthy(c.desk) && c.desk.outbox == []
    ensures var read := ReadTwice(c);
            HttpModel.Attend(w, c.(desk := c.desk.(ticks := c.desk.ticks + 1))) ==
            match KindOf(w, c)
            case Beats => (c.(desk := Push(read.desk, Heartbeat, HeartbeatMessage(w))), Ok(Reply("server poll")))
            case Rests => (read, Ok(Nothing))
            case Serves =>
              (AfterServing(read, ServedCalls(w, c), Served(w, c)),
               if Served(w, c) == [] then Ok(Nothing) else Ok(Reply("messages pending")))
  {
    hide ProcessTop, Plan, CallsOf, Produced;
    if KindOf(w, c) == Serves {
      ServeAccount(w, ReadTwice(c));
    }
  }

  /** One poll, of each of its kinds. */
  lemma PollAccount(w: World, c: Client)
    requires HealthKnown(c.desk) && c.desk.outbox == []
    ensures var read := ReadTwice(c);
            HttpModel.Poll(w, c) ==
            match KindOf(w, c)
            case Reports => (c.(desk := ReportHealth(w, c.desk)), Ok(Reply("flushing queue")))
            case Beats => (c.(desk := Push(read.desk, Heartbeat, HeartbeatMessage(w))), Ok(Reply("server poll")))
            case Rests => (read, Ok(Nothing))
            case Serves =>
              (AfterServing(read, ServedCalls(w, c), Served(w, c)),
               if Served(w, c) == [] then Ok(Nothing) else Ok(Reply("messages pending")))
  {
    hide HttpModel.Attend, AfterServing, Served, ServedCalls;
    if Healthy(c.desk) {
      AttendAccount(w, c);
    }
  }

  /** The report of a client that turns healthy, spelled out. */
  lemma ReportAccount(w: World, desk: Desk)
    requires HealthKnown(desk) && !Healthy(desk)
    ensures ReportHealth(w, desk) ==
            Push(desk.(ticks := desk.ticks + 1, agentState := Some(WithHealth(desk.agentState.value, true))),
                 HealthReport, HealthMessage(w, CurrentHealth(w, desk)))
  {
  }

  /** A served message costs exactly one on_loop, and nothing that a plan asks is a start-up question. */
  lemma ServeAsksOnce(w: World, msg: ServerToAgent)
    ensures var calls := multiset(CallsOf(ServePlan(w, msg)));
      calls[OnLoop] == 1 && calls[GetConfiguration] == 0 && calls[GetFeatures] == 0
  {
    PlannedCalls(w.instanceId, msg);
    hide Plan, LoopPlan;
    LoopService(w, DEFAULT_MESSAGE, [], Plan(w.instanceId, msg));
  }

  // ---- Send ----

  function Queueds(sent: seq<Attempt>): seq<Queued> {
    seq(|sent|, i requires 0 <= i < |sent| => sent[i].queued)
  }

  function Replies(sent: seq<Attempt>): seq<ServerToAgent> {
    if sent == [] then []
    else
      var last := |sent| - 1;
      Replies(sent[..last]) + (if sent[last].result.Delivered? then [sent[last].result.reply] else [])
  }

  lemma {:induction false} RepliesConcat(first: seq<Attempt>, second: seq<Attempt>)
    ensures Replies(first + second) == Replies(first) + Replies(second)
    decreases |second|
  {
    if second == [] {
      assert first + second == first;
    } else {
      var last := |second| - 1;
      RepliesConcat(first, second[..last]);
      assert (first + second)[..|first| + last] == first + second[..last];
      assert (first + second)[|first| + last] == second[last];
    }
  }

  /** A batch makes at least one attempt, only its last may fail, and only behind a failure is anything dropped. */
  ghost predicate Shaped(batch: Batch) {
    && batch.sent != []
    && (forall i | 0 <= i < |batch.sent| - 1 :: batch.sent[i].result.Delivered?)
    && (batch.dropped != [] ==> batch.sent[|batch.sent| - 1].result.Failed?)
  }

  function Advance(c: Client, sent: seq<Attempt>): Client {
    c.(seqno := c.seqno + |sent|,
       posts := c.posts + |sent|,
       lastSent := if sent == [] then c.lastSent else sent[|sent| - 1].time,
       inbox := c.inbox + Replies(sent),
       desk := c.desk.(ticks := c.desk.ticks + |sent|),
       journal := c.journal.(wire := c.journal.wire + sent, received := c.journal.received + Replies(sent)))
  }

  lemma AdvanceTwice(c: Client, first: seq<Attempt>, second: seq<Attempt>)
    ensures Advance(Advance(c, first), second) == Advance(c, first + second)
  {
    RepliesConcat(first, second);
    assert (c.inbox + Replies(first)) + Replies(second) == c.inbox + (Replies(first) + Replies(second));
    var received := c.journal.received;
    assert (received + Replies(first)) + Replies(second) == received + (Replies(first) + Replies(second));
    assert (c.journal.wire + first) + second == c.journal.wire + (first + second);
    if second == [] {
      assert first + second == first;
    }
  }

  lemma AdvanceOne(w: World, c: Client, item: Queued)
    ensures var attempt, tried := NextAttempt(w, c, item), SendAndReceive(w, c, item);
      Advance(c, [attempt]) ==
        match attempt.result
        case Delivered(reply) => Deliver(tried, reply)
        case Failed(_) => tried
  {
    var attempt := NextAttempt(w, c, item);
    assert [attempt][..0] == [];
    assert Replies([attempt]) == if attempt.result.Delivered? then [attempt.result.reply] else [];
    assert c.inbox + [] == c.inbox && c.journal.received + [] == c.journal.received;
  }

  /** Attempt number i of a batch flushed from c. */
  function AttemptAt(w: World, c: Client, item: Queued, i: nat): Attempt {
    Attempt(item, Stamp(c.desk, c.seqno + i + 1, item.msg), w.clock(c.desk.ticks + i), w.post(c.posts + i))
  }

  lemma {:induction false} FlushAdvances(w: World, c: Client, pending: seq<Queued>)
    ensures Flush(w, c, pending).client == Advance(c, Flush(w, c, pending).sent)
    decreases |pending|
  {
    if pending == [] {
      assert c.inbox + [] == c.inbox && c.journal.received + [] == c.journal.received;
      assert c.journal.wire + [] == c.journal.wire;
    } else {
      var attempt := NextAttempt(w, c, pending[0]);
      AdvanceOne(w, c, pending[0]);
      if attempt.result.Delivered? {
        var next := Advance(c, [attempt]);
        FlushAdvances(w, next, pending[1..]);
        AdvanceTwice(c, [attempt], Flush(w, next, pending[1..]).sent);
      }
    }
  }

  predicate Broken(sent: seq<Attempt>) {
    sent != [] && sent[|sent| - 1].result.Failed?
  }

  lemma ShapedCons(first: Attempt, rest: seq<Attempt>, dropped: seq<Queued>)
    requires first.result.Delivered?
    requires if rest == [] then dropped == [] else Shaped(Batch(rest, dropped))
    ensures Shaped(Batch([first] + rest, dropped))
    ensures Broken([first] + rest) <==> Broken(rest)
  {
  }

  lemma {:induction false} FlushTakesAll(w: World, c: Client, pending: seq<Queued>)
    ensures Queueds(Flush(w, c, pending).sent) + Flush(w, c, pending).dropped == pending
    decreases |pending|
  {
    if pending != [] {
      var attempt := NextAttempt(w, c, pending[0]);
      if attempt.result.Delivered? {
        var next := Deliver(SendAndReceive(w, c, pending[0]), attempt.result.reply);
        FlushTakesAll(w, next, pending[1..]);
        var rest := Flush(w, next, pending[1..]);
        assert Queueds([attempt] + rest.sent) == [pending[0]] + Queueds(rest.sent);
      }
    }
  }

  lemma {:induction false} FlushShape(w: World, c: Client, pending: seq<Queued>)
    ensures var flushed := Flush(w, c, pending);
      && (if pending == [] then flushed.sent == [] && flushed.dropped == []
          else Shaped(Batch(flushed.sent, flushed.dropped)))
      && (flushed.failure.Some? <==> Broken(flushed.sent))
    decreases |pending|
  {
    if pending != [] {
      var attempt := NextAttempt(w, c, pending[0]);
      if attempt.result.Delivered? {
        var next := Deliver(SendAndReceive(w, c, pending[0]), attempt.result.reply);
        FlushShape(w, next, pending[1..]);
        var rest := Flush(w, next, pending[1..]);
        ShapedCons(attempt, rest.sent, rest.dropped);
      }
    }
  }

  lemma AttemptShifts(w: World, c: Client, first: Queued, reply: ServerToAgent, item: Queued, i: nat)
    requires i > 0
    ensures AttemptAt(w, Deliver(SendAndReceive(w, c, first), reply), item, i - 1) == AttemptAt(w, c, item, i)
  {
  }

  /** Attempt i of a batch carries pending message i, numbered and timed i places on from where the client is. */
  lemma {:induction false} FlushAttempts(w: World, c: Client, pending: seq<Queued>, i: nat)
    requires i < |Flush(w, c, pending).sent|
    ensures i < |pending| && Flush(w, c, pending).sent[i] == AttemptAt(w, c, pending[i], i)
    decreases |pending|
  {
    var attempt := NextAttempt(w, c, pending[0]);
    assert attempt == AttemptAt(w, c, pending[0], 0);
    if i > 0 {
      hide AttemptAt, NextAttempt;
      var next := Deliver(SendAndReceive(w, c, pending[0]), attempt.result.reply);
      FlushAttempts(w, next, pending[1..], i - 1);
      AttemptShifts(w, c, pending[0], attempt.result.reply, pending[i], i);
    }
  }
}
