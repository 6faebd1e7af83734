/**
 What the messages of a websocket run hold, and how its calls and its queue follow from the frames received.
 */
module WsContents {
  import opened Wrappers
  import opened Messages
  import opened Surroundings
  import opened Sessions
  import opened WsModel
  import opened WsRuns
  import opened Plans
  import opened Contents
  import Agreement

  // ---- One poll ----

  /** The callbacks a frame is shown to before on_loop: none if it is no message. */
  function ShownFrame(w: World, frame: Frame): seq<Call> {
    match frame
    case Inbound(msg) => Shown(w.instanceId, msg)
    case Unusable => []
  }

  predicate FrameWants(w: World, frame: Frame) {
    frame.Inbound? && WantsReport(w.instanceId, frame.msg)
  }

  lemma FrameTells(w: World, frame: Frame)
    ensures var plan := LoopPlan(Agreement.FramePlan(w.instanceId, frame));
      && CallsOf(plan) == ShownFrame(w, frame) + [OnLoop]
      && Voiced(plan)
      && SelfReports(plan) == if FrameWants(w, frame) then 1 else 0
  {
    LoopCalls(Agreement.FramePlan(w.instanceId, frame));
    if frame.Inbound? {
      hide Plan, LoopPlan, Shown, CallsOf, Voiced, SelfReports;
      PlanShows(w.instanceId, frame.msg);
      VoicedPlan(w.instanceId, frame.msg);
      PlanReports(w.instanceId, frame.msg);
    } else {
      assert LoopPlan([]) == [Ask(OnLoop)] && [Ask(OnLoop)][1..] == [];
    }
  }

  /**
   A healthy client shows its next frame, if it is a message, to exactly the callbacks it is for, and consults on_loop
   in any case; it queues one report of its full state if the lowest bit of the flags asks this agent for it and none
   otherwise; and of the callbacks asked it queues every answer, in order.
   */
  lemma ServedFrame(w: World, s: Socket)
    requires Coupled(s) && s.state.Polling? && Healthy(s.desk)
    ensures var frame, s' := w.frame(s.frames), WsModel.Trigger(w, s);
      && s'.desk.calls == s.desk.calls + (ShownFrame(w, frame) + [OnLoop])
      && |MessagesOf(s'.desk.outbox, FullStateReport)| ==
           (if frame.Inbound? && frame.msg.flags % 2 == 1 && frame.msg.instanceUid == w.instanceId then 1 else 0)
      && Answers(w, s'.desk.calls) == Answers(w, s.desk.calls) + MessagesOf(s'.desk.outbox, CallbackReply)
      && s'.desk.agentState == s.desk.agentState
  {
    hide WsModel.Trigger, CallsOf, Produced, LoopPlan, Answers, MessagesOf, ShownFrame, Voiced, SelfReports;
    TriggerMoves(w, s);
    FrameTells(w, w.frame(s.frames));
    AnswersQueued(w, s.desk.agentState.value, s.desk.calls, NextPlan(w, s));
    ReportsQueued(w, s.desk.agentState.value, s.desk.calls, NextPlan(w, s));
    assert [] + Served(w, s) == Served(w, s);
  }

  /** An unhealthy client that polls turns healthy, in nothing else, and queues its id and its health of this moment. */
  lemma HealthReportFires(w: World, s: Socket)
    requires Coupled(s) && s.state.Polling? && !Healthy(s.desk)
    ensures var status, s' := s.desk.agentState.value, WsModel.Trigger(w, s);
      var health := status.health.value;
      && s'.state.Sending?
      && s'.desk.agentState == Some(AgentToServer(status.instanceUid, status.sequenceNum, status.capabilities,
           status.flags, status.agentDescription, Some(AgentHealth(true, health.startTime, health.lastError)),
           status.effectiveConfig, status.remoteConfigStatus, status.packageStatuses, status.agentDisconnect))
      && s'.desk.outbox == [Queued(HealthReport, AgentToServer(w.instanceId, 0, 0, 0, None,
           Some(AgentHealth(true, w.clock(s.desk.ticks) % 0x1_0000_0000_0000_0000, health.lastError)),
           None, None, None, None))]
  {
    hide WsModel.ServeFrame;
  }

  // ---- Whole runs ----

  /** All calls that the first frames of the world bring about. */
  function ShownFrames(w: World, frames: nat): seq<Call> {
    if frames == 0 then []
    else ShownFrames(w, frames - 1) + (ShownFrame(w, w.frame(frames - 1)) + [OnLoop])
  }

  /** How many of the first frames ask this very agent for its full state. */
  function WantingFrames(w: World, frames: nat): nat {
    if frames == 0 then 0
    else WantingFrames(w, frames - 1) + (if FrameWants(w, w.frame(frames - 1)) then 1 else 0)
  }

  ghost predicate TellsAll(w: World, s: Socket) {
    && Told(w, s.desk, ShownFrames(w, s.frames), WantingFrames(w, s.frames))
    && AllWellMade(w, 1, s.desk.enqueued)
  }

  ghost predicate Telling(w: World, s: Socket) {
    if s.desk.agentState.None? then s.desk.calls == [] && s.desk.enqueued == [] && s.desk.ticks == 0 && s.frames == 0
    else TellsAll(w, s)
  }

  lemma OwnMessageToldWell(w: World, s: Socket, s': Socket, item: Queued)
    requires TellsAll(w, s) && WellMade(w, 1, item) && !item.origin.CallbackReply? && !item.origin.FullStateReport?
    requires s'.desk.enqueued == s.desk.enqueued + [item] && s'.desk.calls == s.desk.calls && s'.frames == s.frames
    ensures TellsAll(w, s')
  {
    hide Told, WellMade, ShownFrames, WantingFrames;
    OwnMessageTells(w, s.desk, s'.desk, item, ShownFrames(w, s.frames), WantingFrames(w, s.frames));
  }

  lemma SameTold(w: World, s: Socket, s': Socket)
    requires Telling(w, s) && s'.desk.calls == s.desk.calls && s'.desk.enqueued == s.desk.enqueued
    requires s'.desk.agentState.Some? == s.desk.agentState.Some? && s'.desk.ticks == s.desk.ticks
    requires s'.frames == s.frames
    ensures Telling(w, s')
  {
  }

  lemma ConnectTells(w: World, s: Socket, s': Socket)
    requires Telling(w, s) && s'.desk == SetHealth(w, s.desk, false) && s'.frames == s.frames
    requires s.desk.agentState.Some? ==> s.desk.agentState.value.health.Some?
    ensures Telling(w, s')
  {
    hide InitialStatus;
    if s.desk.agentState.Some? {
      SameTold(w, s, s');
    } else {
      assert s'.desk.calls == [GetConfiguration, GetFeatures];
      NothingToldYet(w, s'.desk);
    }
  }

  lemma FirstStatusIsFullState(w: World)
    ensures IsFullState(w, FirstStatus(w), false) && IsFullState(w, WithHealth(FirstStatus(w), true), true)
    ensures WithHealth(FirstStatus(w), false) == FirstStatus(w) && !FirstStatus(w).health.value.healthy
  {
    assert [] + [GetConfiguration] == [GetConfiguration];
  }

  lemma HandshakeTells(w: World, s: Socket, s': Socket)
    requires TellsAll(w, s) && s.desk.agentState == Some(FirstStatus(w))
    requires s'.desk == ReportStatus(w, SetHealth(w, s.desk, false), FullStateHandshake) && s'.frames == s.frames
    ensures TellsAll(w, s')
  {
    FirstStatusIsFullState(w);
    hide FirstStatus, Told, AllWellMade, ShownFrames, WantingFrames, IsFullState;
    OwnMessageToldWell(w, s, s', Queued(FullStateHandshake, FirstStatus(w)));
  }

  lemma ReportTells(w: World, s: Socket, s': Socket)
    requires TellsAll(w, s) && Opened(w, s.desk) && !Healthy(s.desk)
    requires s'.desk == ReportHealth(w, s.desk) && s'.frames == s.frames
    ensures TellsAll(w, s')
  {
    hide Told, AllWellMade, ShownFrames, WantingFrames;
    OwnMessageToldWell(w, s, s', Queued(HealthReport, HealthMessage(w, CurrentHealth(w, s.desk))));
  }

  lemma ServedWellMade(w: World, s: Socket)
    requires Known(w, s.desk) && Healthy(s.desk)
    ensures AllWellMade(w, 1, Served(w, s))
  {
    FirstStatusIsFullState(w);
    hide FirstStatus, Produced, NextPlan, IsFullState;
    ProducedOrigins(w, s.desk.agentState.value, s.desk.calls, NextPlan(w, s));
  }

  lemma FrameTold(w: World, s: Socket, s': Socket)
    requires TellsAll(w, s) && Known(w, s.desk) && Healthy(s.desk)
    requires s'.desk == Extend(s.desk.(ticks := s.desk.ticks + 1), ServedCalls(w, s), Served(w, s))
    requires s'.frames == s.frames + 1
    ensures TellsAll(w, s')
  {
    hide Known, Told, AllWellMade, CallsOf, Produced, LoopPlan, ShownFrame, FrameWants, Voiced, SelfReports;
    ServedWellMade(w, s);
    FrameTells(w, w.frame(s.frames));
    PlanTells(w, s.desk, s'.desk, s.desk.agentState.value, NextPlan(w, s),
      ShownFrames(w, s.frames), WantingFrames(w, s.frames));
    WellMadeConcat(w, 1, s.desk.enqueued, Served(w, s));
  }

  lemma TellingStep(w: World, n: nat)
    requires Telling(w, Run(w, n))
    ensures Telling(w, Run(w, n + 1))
  {
    BooksBalance(w, n);
    GreetingHolds(w, n);
    RunMoves(w, n);
    hide Run, TellsAll, SetHealth, ReportStatus, ReportHealth, ServedCalls, Served, FirstStatus, Opened;
    var s, s' := Run(w, n), Run(w, n + 1);
    match s.state {
      case Connecting(_) => ConnectTells(w, s, s');
      case Connected(_) => HandshakeTells(w, s, s');
      case Polling(_) =>
        if Healthy(s.desk) {
          FrameTold(w, s, s');
        } else {
          ReportTells(w, s, s');
        }
      case _ => SameTold(w, s, s');
    }
  }

  lemma NothingTellsYet(w: World)
    ensures Telling(w, Run(w, 0))
  {
    assert Run(w, 0) == WsModel.Initial();
  }

  lemma {:induction false} TellingHolds(w: World, n: nat)
    ensures Telling(w, Run(w, n))
  {
    hide Telling, Run;
    if n == 0 {
      NothingTellsYet(w);
    } else {
      TellingHolds(w, n - 1);
      TellingStep(w, n - 1);
    }
  }

  /**
   The calls of a whole run follow from the frames it received: two questions at the start, and then for each frame
   exactly the callbacks it is for, and on_loop. Every answer among them is queued, in order, and no other; and the full
   state is reported exactly once for each frame that asks this agent for it.
   */
  lemma RunIsTold(w: World, n: nat)
    ensures var s := Run(w, n);
      && s.desk.calls == (if s.desk.agentState.None? then []
                          else [GetConfiguration, GetFeatures] + ShownFrames(w, s.frames))
      && MessagesOf(s.desk.enqueued, CallbackReply) == Answers(w, s.desk.calls)
      && |MessagesOf(s.desk.enqueued, FullStateReport)| == WantingFrames(w, s.frames)
  {
    TellingHolds(w, n);
    hide Run, AllWellMade;
  }

  lemma SentIsWellMade(w: World, n: nat, i: nat)
    requires i < |Run(w, n).wire|
    ensures var item := Run(w, n).wire[i].queued;
      WellMade(w, 1, item) && (item.origin.CallbackReply? ==> item.msg in Answers(w, Run(w, n).desk.calls))
  {
    BooksBalance(w, n);
    TellingHolds(w, n);
    hide Run, Answers, WellMade, MessagesOf, FirstStatus, Known;
    var s := Run(w, n);
    assert s.desk.enqueued[i] == Queueds(s.wire)[i] == s.wire[i].queued;
    MessagesOfMember(s.desk.enqueued, s.wire[i].queued);
  }

  /** Every message sent carries its number, the one answer to get_features, and what its origin promises. */
  lemma WireContents(w: World, n: nat, i: nat)
    requires i < |Run(w, n).wire|
    ensures var origin, msg := Run(w, n).wire[i].queued.origin, Run(w, n).wire[i].wire;
      && msg.sequenceNum == i + 1
      && (msg.capabilities, msg.flags) == w.features([GetConfiguration, GetFeatures])
      && (origin.FullStateHandshake? ==> IsFullState(w, msg, false))
      && (origin.FullStateReport? ==> IsFullState(w, msg, true))
      && (origin.HealthReport? ==>
           IsBrief(w, msg, Some(AgentHealth(true, w.clock(1) % 0x1_0000_0000_0000_0000, ""))))
      && (origin.Heartbeat? ==> IsBrief(w, msg, None))
      && (origin.CallbackReply? ==>
           exists answer :: answer in Answers(w, Run(w, n).desk.calls) &&
             msg == answer.(sequenceNum := i + 1, capabilities := msg.capabilities, flags := msg.flags))
  {
    StableCapabilities(w, n);
    hide Run, Answers;
    SentIsWellMade(w, n, i);
  }

  /** The first two messages of a run, in full. */
  lemma OpeningContents(w: World, n: nat)
    ensures var wire := Run(w, n).wire;
      var (capabilities, flags) := w.features([GetConfiguration, GetFeatures]);
      var config := w.configuration([GetConfiguration]);
      && (|wire| >= 1 ==> wire[0].wire == AgentToServer(w.instanceId, 1, capabilities, flags, Some(w.description),
           Some(AgentHealth(false, w.clock(0) % 0x1_0000_0000_0000_0000, "")),
           Some(if config.Answered? then config.value else None), Some(""), Some(""), None))
      && (|wire| >= 2 ==> wire[1].wire == AgentToServer(w.instanceId, 2, capabilities, flags, None,
           Some(AgentHealth(true, w.clock(1) % 0x1_0000_0000_0000_0000, "")), None, None, None, None))
  {
    OpeningExchange(w, n);
    hide Run, FirstStatus;
    if |Run(w, n).wire| >= 1 {
      WireContents(w, n, 0);
    }
    if |Run(w, n).wire| >= 2 {
      WireContents(w, n, 1);
    }
  }
}
