/**
 Runs of the websocket client: what it enqueues is what it sends, in order and under contiguous numbers.
 */
module WsRuns {
  import opened Wrappers
  import opened Messages
  import opened Surroundings
  import opened Sessions
  import opened StateMachine
  import opened WsModel
  import opened Plans
  import Agreement

  predicate Known(w: World, desk: Desk) {
    desk.agentState == Some(FirstStatus(w)) || desk.agentState == Some(WithHealth(FirstStatus(w), true))
  }

  // ---- One trigger, told by its effects ----

  /** What a healthy client does with its next frame, and then on_loop. */
  function NextPlan(w: World, s: Socket): seq<Action> {
    LoopPlan(Agreement.FramePlan(w.instanceId, w.frame(s.frames)))
  }

  function ServedCalls(w: World, s: Socket): seq<Call> {
    CallsOf(NextPlan(w, s))
  }

  function Served(w: World, s: Socket): seq<Queued>
    requires HealthKnown(s.desk)
  {
    Produced(w, s.desk.agentState.value, s.desk.calls, NextPlan(w, s))
  }

  /** A frame is a service like any other: it costs one on_loop and no start-up question. */
  lemma FrameIsService(w: World, s: Socket)
    requires HealthKnown(s.desk)
    ensures Service(s.desk.agentState.value, ServedCalls(w, s), Served(w, s))
  {
    var frame := w.frame(s.frames);
    if frame.Inbound? {
      PlannedCalls(w.instanceId, frame.msg);
    }
    hide Plan, LoopPlan;
    LoopService(w, s.desk.agentState.value, s.desk.calls, Agreement.FramePlan(w.instanceId, frame));
  }

  ghost predicate Moves(w: World, s: Socket, s': Socket)
    requires Coupled(s)
  {
    match s.state
    case Disconnected(_) => s' == s.(state := Connecting(""))
    case Connecting(_) => s' == s.(desk := SetHealth(w, s.desk, false), state := Connected("connected"))
    case Connected(_) =>
      s' == s.(desk := ReportStatus(w, SetHealth(w, s.desk, false), FullStateHandshake),
               state := Sending("handshake enqueued"))
    case Polling(_) =>
      if !Healthy(s.desk) then s' == s.(desk := ReportHealth(w, s.desk), state := Sending("flushing queue"))
      else
        s' == s.(desk := Extend(s.desk.(ticks := s.desk.ticks + 1), ServedCalls(w, s), Served(w, s)),
                 frames := s.frames + 1,
                 state := if Served(w, s) == [] then s.state else Sending("messages pending"))
    case Sending(_) => s' == WsModel.Send(s).0.(state := Waiting("messages sent"))
    case Waiting(_) => s' == s.(state := Polling(""))
  }

  lemma TriggerMoves(w: World, s: Socket)
    requires Coupled(s)
    ensures Moves(w, s, WsModel.Trigger(w, s))
  {
    hide WsModel.ServeFrame, CallsOf, Produced, LoopPlan, Agreement.FramePlan;
    if s.state.Polling? && Healthy(s.desk) {
      Agreement.WsServeAccount(w, s.(desk := s.desk.(ticks := s.desk.ticks + 1)));
    }
  }

  lemma MovesKeepCoupled(w: World, s: Socket, s': Socket)
    requires Coupled(s) && Moves(w, s, s')
    ensures Coupled(s')
  {
  }

  function Run(w: World, n: nat): (s: Socket)
    ensures Coupled(s)
  {
    if n == 0 then Initial()
    else
      TriggerKeepsCoupled(w, Run(w, n - 1));
      WsModel.Trigger(w, Run(w, n - 1))
  }

  lemma TriggerKeepsCoupled(w: World, s: Socket)
    requires Coupled(s)
    ensures Coupled(WsModel.Trigger(w, s))
  {
    TriggerMoves(w, s);
    MovesKeepCoupled(w, s, WsModel.Trigger(w, s));
  }

  lemma RunTriggers(w: World, n: nat)
    ensures Run(w, n + 1) == WsModel.Trigger(w, Run(w, n))
  {
  }

  lemma RunMoves(w: World, n: nat)
    ensures Moves(w, Run(w, n), Run(w, n + 1))
  {
    hide WsModel.Trigger;
    TriggerMoves(w, Run(w, n));
  }

  // ---- The books of a websocket run ----

  function Queueds(wire: seq<Sent>): seq<Queued> {
    seq(|wire|, i requires 0 <= i < |wire| => wire[i].queued)
  }

  ghost predicate Books(w: World, s: Socket) {
    && s.desk.enqueued == Queueds(s.wire) + s.desk.outbox
    && |s.wire| == s.seqno
    && (if s.desk.agentState.Some? then Known(w, s.desk) else s.desk.calls == [] && s.desk.ticks == 0)
    && forall i | 0 <= i < |s.wire| ::
      s.wire[i].wire == s.wire[i].queued.msg.(sequenceNum := i + 1,
        capabilities := FirstStatus(w).capabilities, flags := FirstStatus(w).flags)
  }

  lemma BooksGrow(w: World, s: Socket, s': Socket, added: seq<Queued>)
    requires Books(w, s) && s'.wire == s.wire && s'.seqno == s.seqno && Known(w, s'.desk)
    requires s'.desk.enqueued == s.desk.enqueued + added && s'.desk.outbox == s.desk.outbox + added
    ensures Books(w, s')
  {
    hide InitialStatus;
    assert (Queueds(s.wire) + s.desk.outbox) + added == Queueds(s.wire) + (s.desk.outbox + added);
  }

  lemma BooksSend(w: World, s: Socket, s': Socket)
    requires Books(w, s) && Known(w, s.desk) && s' == WsModel.Send(s).0.(state := s'.state)
    ensures Books(w, s')
  {
    hide InitialStatus;
    assert Queueds(s'.wire) == Queueds(s.wire) + s.desk.outbox;
    assert Queueds(s'.wire) + [] == Queueds(s'.wire);
    forall i | 0 <= i < |s'.wire|
      ensures s'.wire[i].wire == s'.wire[i].queued.msg.(sequenceNum := i + 1,
        capabilities := FirstStatus(w).capabilities, flags := FirstStatus(w).flags)
    {
      if i >= |s.wire| {
        assert s'.wire[i] == Stamps(s)[i - |s.wire|];
      }
    }
  }

  lemma KnownAfterSetHealth(w: World, desk: Desk, healthy: bool)
    requires if desk.agentState.Some? then Known(w, desk) else desk.calls == [] && desk.ticks == 0
    ensures Known(w, SetHealth(w, desk, healthy))
  {
  }

  lemma BooksStep(w: World, s: Socket, s': Socket)
    requires Coupled(s) && Books(w, s) && Moves(w, s, s')
    ensures Books(w, s')
  {
    match s.state {
      case Connecting(_) =>
        KnownAfterSetHealth(w, s.desk, false);
        BooksGrow(w, s, s', []);
      case Connected(_) =>
        KnownAfterSetHealth(w, s.desk, false);
        BooksGrow(w, s, s', s'.desk.outbox);
      case Polling(_) => BooksGrow(w, s, s', s'.desk.outbox);
      case Sending(_) => BooksSend(w, s, s');
      case _ =>
    }
  }

  lemma {:induction false} BooksBalance(w: World, n: nat)
    ensures Books(w, Run(w, n))
  {
    hide WsModel.Trigger;
    if n > 0 {
      BooksBalance(w, n - 1);
      RunMoves(w, n - 1);
      BooksStep(w, Run(w, n - 1), Run(w, n));
    }
  }

  /** Nothing is dropped, the order of enqueueing is the order on the wire, and the numbers are 1, 2, 3, ... */
  lemma WireIsWhatWasEnqueued(w: World, n: nat)
    ensures var s := Run(w, n);
      && |s.wire| == s.seqno
      && s.desk.enqueued == Queueds(s.wire) + s.desk.outbox
      && forall i | 0 <= i < |s.wire| ::
           var (capabilities, flags) := w.features([GetConfiguration, GetFeatures]);
           s.wire[i].wire == s.wire[i].queued.msg.(sequenceNum := i + 1, capabilities := capabilities, flags := flags)
  {
    BooksBalance(w, n);
    assert [] + [GetConfiguration] + [GetFeatures] == [GetConfiguration, GetFeatures];
  }

  // ---- One answer to each start-up question ----

  /** Nothing has been asked, or the two start-up questions once each, first, and on_loop once for each frame. */
  ghost predicate Inquired(s: Socket) {
    if s.desk.agentState.None? then s.desk.calls == [] && s.frames == 0 else Asked(s.desk.calls, s.frames)
  }

  lemma SetHealthInquires(w: World, desk: Desk)
    requires desk.agentState.None? && desk.calls == []
    ensures Asked(SetHealth(w, desk, false).calls, 0)
  {
    hide InitialStatus;
    assert SetHealth(w, desk, false).calls == [GetConfiguration, GetFeatures];
  }

  lemma InquiredStep(w: World, s: Socket, s': Socket)
    requires Coupled(s) && Inquired(s) && Moves(w, s, s')
    ensures Inquired(s')
  {
    hide InitialStatus, ServedCalls, Served, Asked;
    if s.state.Connecting? && s.desk.agentState.None? {
      SetHealthInquires(w, s.desk);
    }
    if s.state.Polling? && Healthy(s.desk) {
      FrameIsService(w, s);
      AskedMore(s.desk.calls, s.frames, ServedCalls(w, s), s.desk.agentState.value, Served(w, s));
    }
  }

  lemma {:induction false} InquiredHolds(w: World, n: nat)
    ensures Inquired(Run(w, n))
  {
    hide WsModel.Trigger, Moves, Asked;
    if n > 0 {
      InquiredHolds(w, n - 1);
      RunMoves(w, n - 1);
      InquiredStep(w, Run(w, n - 1), Run(w, n));
    }
  }

  /** The embedder is asked once for its features, and every message sent carries that answer and the next number. */
  lemma StableCapabilities(w: World, n: nat)
    ensures var s := Run(w, n);
      && multiset(s.desk.calls)[GetConfiguration] <= 1
      && multiset(s.desk.calls)[GetFeatures] <= 1
      && forall i | 0 <= i < |s.wire| ::
           var (capabilities, flags) := w.features([GetConfiguration, GetFeatures]);
           s.wire[i].wire == s.wire[i].queued.msg.(sequenceNum := i + 1, capabilities := capabilities, flags := flags)
  {
    hide Run;
    InquiredHolds(w, n);
    WireIsWhatWasEnqueued(w, n);
  }

  /** on_loop is called once for every frame received, be it a message or not. */
  lemma OneLoopPerFrame(w: World, n: nat)
    ensures multiset(Run(w, n).desk.calls)[OnLoop] == Run(w, n).frames
  {
    hide Run;
    InquiredHolds(w, n);
  }

  // ---- The opening exchange ----

  /** The health report the client sends on its own account at its first poll, the second clock reading. */
  function FirstHealthReport(w: World): AgentToServer {
    HealthMessage(w, AgentHealth(false, w.clock(1) % U64, ""))
  }

  /** The first thing enqueued is the full state, the second the report of good health, and neither ever again. */
  ghost predicate Opened(w: World, desk: Desk) {
    var items := desk.enqueued;
    && items != [] && items[0] == Queued(FullStateHandshake, FirstStatus(w))
    && NoneSince(items, 1, FullStateHandshake)
    && if Healthy(desk) then
         |items| >= 2 && items[1] == Queued(HealthReport, FirstHealthReport(w)) && NoneSince(items, 2, HealthReport)
       else
         |items| == 1 && desk.ticks == 1 && desk.agentState == Some(FirstStatus(w))
  }

  ghost predicate Greeting(w: World, s: Socket) {
    if s.state.Disconnected? || s.state.Connecting? then s.desk == Desk(None, [], [], [], 0)
    else if s.state.Connected? then
      s.desk.agentState == Some(FirstStatus(w)) && s.desk.enqueued == [] && s.desk.ticks == 1
    else Opened(w, s.desk)
  }

  lemma ConnectGreets(w: World)
    ensures var desk := SetHealth(w, Desk(None, [], [], [], 0), false);
            desk.agentState == Some(FirstStatus(w)) && desk.enqueued == [] && desk.ticks == 1
  {
  }

  lemma HandshakeOpens(w: World, desk: Desk)
    requires desk.agentState == Some(FirstStatus(w)) && desk.enqueued == [] && desk.ticks == 1
    ensures Opened(w, ReportStatus(w, SetHealth(w, desk, false), FullStateHandshake))
  {
  }

  lemma HealthReportOpens(w: World, desk: Desk)
    requires Opened(w, desk) && !Healthy(desk)
    ensures Opened(w, ReportHealth(w, desk))
  {
  }

  lemma SendKeepsOpened(w: World, desk: Desk)
    requires Opened(w, desk)
    ensures Opened(w, desk.(outbox := []))
  {
    hide InitialStatus;
  }

  lemma FrameKeepsOpened(w: World, s: Socket, desk: Desk)
    requires Opened(w, s.desk) && Healthy(s.desk)
    requires desk == Extend(s.desk.(ticks := s.desk.ticks + 1), ServedCalls(w, s), Served(w, s))
    ensures Opened(w, desk)
  {
    FrameIsService(w, s);
    hide InitialStatus, ServedCalls, Served;
  }

  lemma GreetingStep(w: World, s: Socket, s': Socket)
    requires Coupled(s) && Greeting(w, s) && Moves(w, s, s')
    ensures Greeting(w, s')
  {
    hide SetHealth, ReportStatus, ReportHealth, FirstStatus, ServedCalls, Served, Opened;
    match s.state {
      case Connecting(_) => ConnectGreets(w);
      case Connected(_) => HandshakeOpens(w, s.desk);
      case Polling(_) =>
        if !Healthy(s.desk) {
          HealthReportOpens(w, s.desk);
        } else {
          FrameKeepsOpened(w, s, s'.desk);
        }
      case Sending(_) => SendKeepsOpened(w, s.desk);
      case _ =>
    }
  }

  lemma {:induction false} GreetingHolds(w: World, n: nat)
    ensures Greeting(w, Run(w, n))
  {
    hide WsModel.Trigger, Moves, Opened;
    if n > 0 {
      GreetingHolds(w, n - 1);
      RunMoves(w, n - 1);
      GreetingStep(w, Run(w, n - 1), Run(w, n));
    }
  }

  /** The first message sent is the full state, unhealthy, and the second the client's report that it is healthy. */
  lemma OpeningExchange(w: World, n: nat)
    ensures var wire := Run(w, n).wire;
      && (|wire| >= 1 ==> wire[0].queued == Queued(FullStateHandshake, FirstStatus(w))
                          && wire[0].wire == FirstStatus(w).(sequenceNum := 1))
      && (|wire| >= 2 ==> wire[1].queued == Queued(HealthReport, FirstHealthReport(w))
                          && wire[1].wire == FirstHealthReport(w).(sequenceNum := 2,
                               capabilities := FirstStatus(w).capabilities, flags := FirstStatus(w).flags))
      && !FirstStatus(w).health.value.healthy && FirstHealthReport(w).health.value.healthy
  {
    BooksBalance(w, n);
    GreetingHolds(w, n);
    hide Run;
    var s := Run(w, n);
    assert forall i | 0 <= i < |s.wire| :: s.desk.enqueued[i] == Queueds(s.wire)[i] == s.wire[i].queued;
  }

  /** The full state for the handshake and the health report are enqueued at most once a run. */
  lemma OpenedOnce(w: World, n: nat, i: nat, j: nat)
    requires i < j < |Run(w, n).desk.enqueued|
    ensures var items := Run(w, n).desk.enqueued;
      items[i].origin == items[j].origin ==> !items[i].origin.FullStateHandshake? && !items[i].origin.HealthReport?
  {
    GreetingHolds(w, n);
    hide Run, InitialStatus;
  }
}
