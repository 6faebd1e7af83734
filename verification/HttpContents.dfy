/**
 What the messages of an HTTP run hold, and how the calls and the queue of a run follow from what was processed.
 */
module HttpContents {
  import opened Wrappers
  import opened Messages
  import opened Surroundings
  import opened Sessions
  import opened HttpModel
  import opened HttpSteps
  import opened HttpRuns
  import opened HttpLedger
  import opened HttpOpening
  import opened Plans
  import opened Contents

  // ---- One poll ----

  lemma ServesExactly(w: World, c: Client)
    requires Coupled(c) && c.state.Polling? && KindOf(w, c) == Serves
    ensures var c' := HttpModel.Trigger(w, c);
      && c'.desk == Extend(ReadTwice(c).desk, ServedCalls(w, c), Served(w, c))
      && c'.inbox == c.inbox[..|c.inbox| - 1]
      && c'.journal.processed == c.journal.processed + [c.inbox[|c.inbox| - 1]]
  {
    hide ProcessTop, ReportHealth, Served, ServedCalls;
    PollAccount(w, c);
  }

  /**
   A healthy client with mail and in time shows its top message to exactly the callbacks it is for, then consults
   on_loop; it queues one report of its full state if the lowest bit of the flags asks this agent for it and none
   otherwise; and of the callbacks asked it queues every answer, in order.
   */
  lemma ServedMessage(w: World, c: Client)
    requires Coupled(c) && c.state.Polling? && Healthy(c.desk) && c.inbox != []
    requires w.clock(c.desk.ticks + 1) < c.lastSent + SERVER_POLL_DELAY
    ensures var msg, c' := c.inbox[|c.inbox| - 1], HttpModel.Trigger(w, c);
      && c'.desk.calls == c.desk.calls + (Shown(w.instanceId, msg) + [OnLoop])
      && |MessagesOf(c'.desk.outbox, FullStateReport)| ==
           (if msg.flags % 2 == 1 && msg.instanceUid == w.instanceId then 1 else 0)
      && Answers(w, c'.desk.calls) == Answers(w, c.desk.calls) + MessagesOf(c'.desk.outbox, CallbackReply)
      && c'.desk.agentState == c.desk.agentState
  {
    hide HttpModel.Trigger, Plan, CallsOf, Produced, LoopPlan, Answers, MessagesOf, Shown;
    ServesExactly(w, c);
    ServiceTells(w, c.desk.agentState.value, c.desk.calls, c.inbox[|c.inbox| - 1]);
    assert [] + Served(w, c) == Served(w, c);
  }

  /** An unhealthy client that polls turns healthy, in nothing else, and queues its id and its health of this moment. */
  lemma HealthReportFires(w: World, c: Client)
    requires Coupled(c) && c.state.Polling? && !Healthy(c.desk)
    ensures var status, c' := c.desk.agentState.value, HttpModel.Trigger(w, c);
      var health := status.health.value;
      && c'.state.Sending?
      && c'.desk.agentState == Some(AgentToServer(status.instanceUid, status.sequenceNum, status.capabilities,
           status.flags, status.agentDescription, Some(AgentHealth(true, health.startTime, health.lastError)),
           status.effectiveConfig, status.remoteConfigStatus, status.packageStatuses, status.agentDisconnect))
      && c'.desk.outbox == [Queued(HealthReport, AgentToServer(w.instanceId, 0, 0, 0, None,
           Some(AgentHealth(true, w.clock(c.desk.ticks) % 0x1_0000_0000_0000_0000, health.lastError)),
           None, None, None, None))]
  {
    hide HttpModel.Attend;
  }

  // ---- Whole runs ----

  ghost predicate TellsAll(w: World, c: Client) {
    Told(w, c.desk, ShownAll(w.instanceId, c.journal.processed), Wanting(w.instanceId, c.journal.processed))
  }

  ghost predicate Telling(w: World, c: Client) {
    && (Opening(c.state) ==> Pristine(c))
    && (!Opening(c.state) ==> TellsAll(w, c) && AllWellMade(w, 2, c.desk.enqueued))
  }

  lemma HandshakeTells(w: World, c: Client, c': Client)
    requires Pristine(c) && c'.desk == ReportStatus(w, c.desk, FullStateHandshake) && c'.journal == c.journal
    ensures TellsAll(w, c') && AllWellMade(w, 2, c'.desk.enqueued)
  {
    var asked := Populate(w, c.desk);
    assert asked.calls == [GetConfiguration, GetFeatures] == [GetConfiguration] + [GetFeatures];
    assert [] + [GetConfiguration] == [GetConfiguration];
    NothingToldYet(w, asked);
    OwnMessageTells(w, asked, c'.desk, Queued(FullStateHandshake, FirstStatus(w)), [], 0);
  }

  lemma ServiceTold(w: World, c: Client, c': Client)
    requires HealthKnown(c.desk) && c.inbox != [] && TellsAll(w, c)
    requires c'.desk == Extend(ReadTwice(c).desk, ServedCalls(w, c), Served(w, c))
    requires c'.journal.processed == c.journal.processed + [c.inbox[|c.inbox| - 1]]
    ensures TellsAll(w, c')
  {
    hide Plan, LoopPlan, CallsOf, Produced, ShownAll, Wanting, Shown, WantsReport, Voiced, SelfReports, Told;
    var msg := c.inbox[|c.inbox| - 1];
    LoopCalls(Plan(w.instanceId, msg));
    PlanShows(w.instanceId, msg);
    VoicedPlan(w.instanceId, msg);
    PlanReports(w.instanceId, msg);
    OneMoreShown(w.instanceId, c.journal.processed, msg);
    PlanTells(w, c.desk, c'.desk, c.desk.agentState.value, ServePlan(w, msg),
      ShownAll(w.instanceId, c.journal.processed), Wanting(w.instanceId, c.journal.processed));
  }

  lemma StatusIsFullState(w: World, c: Client)
    requires Settled(w, c) && Healthy(c.desk)
    ensures IsFullState(w, c.desk.agentState.value, true)
  {
    assert [] + [GetConfiguration] == [GetConfiguration];
  }

  lemma ServedWellMade(w: World, c: Client)
    requires Settled(w, c) && Healthy(c.desk) && c.inbox != []
    ensures AllWellMade(w, 2, Served(w, c))
  {
    hide InitialStatus, Plan, LoopPlan, CallsOf, Produced, IsFullState;
    StatusIsFullState(w, c);
    ProducedOrigins(w, c.desk.agentState.value, c.desk.calls, ServePlan(w, c.inbox[|c.inbox| - 1]));
  }

  lemma ServiceTellsRun(w: World, n: nat)
    requires Telling(w, Run(w, n)) && Run(w, n).state.Polling? && KindOf(w, Run(w, n)) == Serves
    ensures TellsAll(w, Run(w, n + 1)) && AllWellMade(w, 2, Run(w, n + 1).desk.enqueued)
  {
    hide Run, HttpModel.Trigger, TellsAll, Settled, Served, ServedCalls, AllWellMade;
    IdentityHolds(w, n);
    RunTriggers(w, n);
    ServesExactly(w, Run(w, n));
    ServiceTold(w, Run(w, n), Run(w, n + 1));
    ServedWellMade(w, Run(w, n));
    WellMadeConcat(w, 2, Run(w, n).desk.enqueued, Served(w, Run(w, n)));
  }

  lemma ReportIsWellMade(w: World, c: Client)
    requires Settled(w, c) && Opened(w, c) && !Healthy(c.desk) && c.state.Polling?
    ensures c.desk.agentState.Some? && HealthKnown(c.desk)
    ensures WellMade(w, 2, Queued(HealthReport, HealthMessage(w, CurrentHealth(w, c.desk))))
  {
  }

  lemma OwnMessageToldWell(w: World, c: Client, c': Client, item: Queued)
    requires TellsAll(w, c) && AllWellMade(w, 2, c.desk.enqueued) && WellMade(w, 2, item)
    requires item.origin.HealthReport? || item.origin.Heartbeat?
    requires c'.desk.enqueued == c.desk.enqueued + [item] && c'.desk.calls == c.desk.calls
    requires c'.journal.processed == c.journal.processed
    ensures TellsAll(w, c') && AllWellMade(w, 2, c'.desk.enqueued)
  {
    hide Told, WellMade, ShownAll, Wanting;
    OwnMessageTells(w, c.desk, c'.desk, item,
      ShownAll(w.instanceId, c.journal.processed), Wanting(w.instanceId, c.journal.processed));
  }

  lemma OwnPollTellsRun(w: World, n: nat)
    requires Telling(w, Run(w, n)) && Run(w, n).state.Polling? && KindOf(w, Run(w, n)) != Serves
    ensures TellsAll(w, Run(w, n + 1)) && AllWellMade(w, 2, Run(w, n + 1).desk.enqueued)
  {
    hide Run, TellsAll, AllWellMade, Settled, Opened, InitialStatus, HealthMessage;
    IdentityHolds(w, n);
    GreetingHolds(w, n);
    var c, c' := Run(w, n), Run(w, n + 1);
    var move := RunMoves(w, n);
    if KindOf(w, c) == Reports {
      ReportIsWellMade(w, c);
      OwnMessageToldWell(w, c, c', Queued(HealthReport, HealthMessage(w, CurrentHealth(w, c.desk))));
    } else if KindOf(w, c) == Beats {
      OwnMessageToldWell(w, c, c', Queued(Heartbeat, HeartbeatMessage(w)));
    } else {
      SameTold(w, c, c');
    }
  }

  lemma SameTold(w: World, c: Client, c': Client)
    requires TellsAll(w, c) && c'.desk.calls == c.desk.calls && c'.desk.enqueued == c.desk.enqueued
    requires c'.journal.processed == c.journal.processed
    ensures TellsAll(w, c')
  {
  }

  lemma TellingStep(w: World, n: nat)
    requires Telling(w, Run(w, n))
    ensures Telling(w, Run(w, n + 1))
  {
    hide Run, TellsAll, AllWellMade, Polls, ReportStatus, HttpModel.Trigger;
    IdentityHolds(w, n + 1);
    hide Settled;
    var c, c' := Run(w, n), Run(w, n + 1);
    if c.state.Polling? {
      if KindOf(w, c) == Serves {
        ServiceTellsRun(w, n);
      } else {
        OwnPollTellsRun(w, n);
      }
    } else {
      var move := RunMoves(w, n);
      if c.state.Connected? {
        HandshakeTells(w, c, c');
      } else if !Opening(c.state) {
        SameTold(w, c, c');
      }
    }
  }

  lemma {:induction false} TellingHolds(w: World, n: nat)
    ensures Telling(w, Run(w, n))
  {
    hide Telling, Run;
    if n == 0 {
      PristineTells(w);
    } else {
      TellingHolds(w, n - 1);
      TellingStep(w, n - 1);
    }
  }

  lemma PristineTells(w: World)
    ensures Telling(w, Run(w, 0))
  {
    assert Run(w, 0) == Initial();
  }

  /**
   The calls of a whole run follow from the messages it processed: two questions at the start, and then for each
   message exactly the callbacks it is for, and on_loop. Every answer among them is queued, in order, and no other; and
   the full state is reported exactly once for each processed message that asks this agent for it.
   */
  lemma RunIsTold(w: World, n: nat)
    ensures var c := Run(w, n);
      && c.desk.calls == (if c.desk.agentState.None? then []
                          else [GetConfiguration, GetFeatures] + ShownAll(w.instanceId, c.journal.processed))
      && MessagesOf(c.desk.enqueued, CallbackReply) == Answers(w, c.desk.calls)
      && |MessagesOf(c.desk.enqueued, FullStateReport)| == Wanting(w.instanceId, c.journal.processed)
  {
    TellingHolds(w, n);
    IdentityHolds(w, n);
    hide Run, AllWellMade, FirstStatus;
  }

  // ---- What is on the wire ----

  lemma {:induction false} MetWithin(items: seq<Queued>, fates: seq<Fate>, fate: Fate, item: Queued)
    requires |items| == |fates| && item in Met(items, fates, fate)
    ensures item in items
    decreases |items|
  {
    var last := |items| - 1;
    if item in Met(items[..last], fates[..last], fate) {
      MetWithin(items[..last], fates[..last], fate, item);
    }
  }

  lemma WireWasEnqueued(w: World, n: nat, i: nat)
    requires i < |Run(w, n).journal.wire|
    ensures Run(w, n).journal.wire[i].queued in Run(w, n).desk.enqueued
  {
    Conservation(w, n);
    hide Run;
    var c := Run(w, n);
    assert Queueds(c.journal.wire)[i] == c.journal.wire[i].queued;
    MetWithin(c.desk.enqueued, Fates(c), Tried, c.journal.wire[i].queued);
  }

  lemma EnqueuedIsWellMade(w: World, n: nat, item: Queued)
    requires item in Run(w, n).desk.enqueued
    ensures WellMade(w, 2, item)
    ensures item.origin.CallbackReply? ==> item.msg in Answers(w, Run(w, n).desk.calls)
  {
    TellingHolds(w, n);
    hide Run, Answers, WellMade;
    MessagesOfMember(Run(w, n).desk.enqueued, item);
  }

  /**
   Whatever fails, every request of a run carries its number, the one answer to get_features, and what its origin
   promises, field by field: a full state, unhealthy for the handshake and healthy ever after; the health report; a
   heartbeat that holds nothing but the agent's id; or what some callback answered.
   */
  lemma WireContents(w: World, n: nat, i: nat)
    requires i < |Run(w, n).journal.wire|
    ensures var origin, msg := Run(w, n).journal.wire[i].queued.origin, Run(w, n).journal.wire[i].wire;
      && msg.sequenceNum == i + 1
      && (msg.capabilities, msg.flags) == w.features([GetConfiguration, GetFeatures])
      && (origin.FullStateHandshake? ==> IsFullState(w, msg, false))
      && (origin.FullStateReport? ==> IsFullState(w, msg, true))
      && (origin.HealthReport? ==>
           IsBrief(w, msg, Some(AgentHealth(true, w.clock(2) % 0x1_0000_0000_0000_0000, ""))))
      && (origin.Heartbeat? ==> IsBrief(w, msg, None))
      && (origin.CallbackReply? ==>
           exists answer :: answer in Answers(w, Run(w, n).desk.calls) &&
             msg == answer.(sequenceNum := i + 1, capabilities := msg.capabilities, flags := msg.flags))
  {
    StableCapabilities(w, n);
    WireWasEnqueued(w, n, i);
    hide Run, Answers;
    EnqueuedIsWellMade(w, n, Run(w, n).journal.wire[i].queued);
  }

  /** The first two requests of a run, in full. */
  lemma OpeningContents(w: World, n: nat)
    ensures var wire := Run(w, n).journal.wire;
      var (capabilities, flags) := w.features([GetConfiguration, GetFeatures]);
      var config := w.configuration([GetConfiguration]);
      && (|wire| >= 1 ==> wire[0].wire == AgentToServer(w.instanceId, 1, capabilities, flags, Some(w.description),
           Some(AgentHealth(false, w.clock(0) % 0x1_0000_0000_0000_0000, "")),
           Some(if config.Answered? then config.value else None), Some(""), Some(""), None))
      && (|wire| >= 2 ==> wire[1].wire == AgentToServer(w.instanceId, 2, capabilities, flags, None,
           Some(AgentHealth(true, w.clock(2) % 0x1_0000_0000_0000_0000, "")), None, None, None, None))
  {
    OpeningExchange(w, n);
    hide Run, FirstStatus;
    if |Run(w, n).journal.wire| >= 1 {
      WireContents(w, n, 0);
    }
    if |Run(w, n).journal.wire| >= 2 {
      WireContents(w, n, 1);
    }
  }
}
