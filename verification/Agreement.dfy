/**
 The dispatch is written out once in each client. Where the two copies, and the polls around them, agree.
 */
module Agreement {
  import opened Messages
  import opened Surroundings
  import opened Sessions
  import opened StateMachine
  import HttpModel
  import HttpSteps
  import WsModel
  import opened Plans

  // ---- The two copies of the dispatch ----

  lemma ReportAgrees(w: World, desk: Desk, msg: ServerToAgent)
    requires Healthy(desk)
    ensures WsModel.ReportFullState(w, desk, msg) == HttpModel.ReportFullState(w, desk, msg)
  {
    assert WithHealth(desk.agentState.value, true) == desk.agentState.value;
  }

  /** What the two copies do before they come to the full-state request leaves the agent state alone. */
  function BeforeReport(w: World, desk: Desk, msg: ServerToAgent): Desk {
    WsModel.RelayError(WsModel.Command(w, desk, msg), msg)
  }

  lemma DispatchAgrees(w: World, desk: Desk, msg: ServerToAgent)
    requires Healthy(desk)
    ensures WsModel.Dispatch(w, desk, msg) == HttpModel.Dispatch(w, desk, msg)
  {
    ReportAgrees(w, BeforeReport(w, desk, msg), msg);
  }

  lemma HttpKeepsStatus(w: World, desk: Desk, msg: ServerToAgent)
    requires HealthKnown(desk)
    ensures HttpModel.Dispatch(w, desk, msg).agentState == desk.agentState
  {
    DispatchFollowsPlan(w, desk, msg);
    ExecuteAccount(w, desk, Plan(w.instanceId, msg));
  }

  lemma OffersKeepStatus(w: World, desk: Desk, msg: ServerToAgent)
    ensures WsModel.OfferConnections(w, desk, msg).agentState == desk.agentState
  {
  }

  lemma WsEndsHealthy(w: World, desk: Desk, msg: ServerToAgent)
    requires HealthKnown(desk) && AsksThisAgent(w, msg)
    ensures Healthy(WsModel.Dispatch(w, desk, msg))
  {
    var relayed := BeforeReport(w, desk, msg);
    assert relayed.agentState == desk.agentState;
    var reported := WsModel.ReportFullState(w, relayed, msg);
    assert Healthy(reported);
    hide WsModel.OfferConnections, WsModel.ReportFullState, BeforeReport;
    var configured := WsModel.RemoteConfig(w, reported, msg);
    OffersKeepStatus(w, configured, msg);
  }

  lemma WsLikeHttpElsewhere(w: World, desk: Desk, msg: ServerToAgent)
    requires !AsksThisAgent(w, msg)
    ensures WsModel.Dispatch(w, desk, msg) == HttpModel.Dispatch(w, desk, msg)
  {
  }

  /**
   The copies agree exactly where the websocket's extra set_health(true) changes nothing. They part only over an
   unhealthy agent, and no poll shows a message to one (UnhealthyPollsTakeNothing). So in the end the polls agree on
   an unhealthy agent whatever has come in (PollsAgreeIff).
   */
  lemma DispatchAgreesIff(w: World, desk: Desk, msg: ServerToAgent)
    requires HealthKnown(desk)
    ensures WsModel.Dispatch(w, desk, msg) == HttpModel.Dispatch(w, desk, msg) <==>
            Healthy(desk) || !AsksThisAgent(w, msg)
  {
    hide WsModel.Dispatch, HttpModel.Dispatch;
    if Healthy(desk) {
      DispatchAgrees(w, desk, msg);
    } else if AsksThisAgent(w, msg) {
      HttpKeepsStatus(w, desk, msg);
      WsEndsHealthy(w, desk, msg);
    } else {
      WsLikeHttpElsewhere(w, desk, msg);
    }
  }

  // ---- The two polls ----

  function Untimed(desk: Desk): Desk {
    desk.(ticks := 0)
  }

  /** The same callback calls in the same order, the same outbox and agent state, the same answer to the machine. */
  predicate SamePoll(w: World, h: HttpModel.Client, s: WsModel.Socket)
    requires HealthKnown(h.desk) && HealthKnown(s.desk)
  {
    && Untimed(HttpModel.Poll(w, h).0.desk) == Untimed(WsModel.Poll(w, s).0.desk)
    && HttpModel.Poll(w, h).1 == WsModel.Poll(w, s).1
  }

  /**
   A message and a frame that look the same to the embedder and get the same report of the agent: the same message,
   or two that are for no callback and do both or neither ask for the full state. A frame that is no message
   is like a message that asks for nothing.
   */
  predicate Alike(instanceId: string, msg: ServerToAgent, frame: Frame) {
    frame == Inbound(msg) ||
    (&& AsksNobody(instanceId, msg)
     && (frame.Inbound? ==> AsksNobody(instanceId, frame.msg))
     && (AsksFullState(msg) <==> frame.Inbound? && AsksFullState(frame.msg)))
  }

  /** The HTTP client is inside the poll window with mail, and the websocket receives the like of its top message. */
  predicate SameMail(w: World, h: HttpModel.Client, s: WsModel.Socket) {
    && h.inbox != []
    && w.clock(h.desk.ticks + 1) < h.lastSent + HttpModel.SERVER_POLL_DELAY
    && Alike(w.instanceId, h.inbox[|h.inbox| - 1], w.frame(s.frames))
  }

  function FramePlan(instanceId: string, frame: Frame): seq<Action> {
    match frame
    case Inbound(msg) => Plan(instanceId, msg)
    case Unusable => []
  }

  /** What a websocket client does with a frame, on the terms of the table. */
  lemma WsServeAccount(w: World, s: WsModel.Socket)
    requires Healthy(s.desk) && s.desk.outbox == []
    ensures var plan := LoopPlan(FramePlan(w.instanceId, w.frame(s.frames)));
            var produced := Produced(w, s.desk.agentState.value, s.desk.calls, plan);
            WsModel.ServeFrame(w, s) ==
              (s.(desk := Extend(s.desk, CallsOf(plan), produced), frames := s.frames + 1),
               if produced == [] then Ok(Nothing) else Ok(Reply("messages pending")))
  {
    hide WsModel.Dispatch, HttpModel.Dispatch, Plan, CallsOf, Produced;
    var plan := FramePlan(w.instanceId, w.frame(s.frames));
    if w.frame(s.frames).Inbound? {
      DispatchAgrees(w, s.desk, w.frame(s.frames).msg);
      DispatchFollowsPlan(w, s.desk, w.frame(s.frames).msg);
    }
    ExecuteConcat(w, s.desk, plan, [Ask(OnLoop)]);
    assert [Ask(OnLoop)][1..] == [];
    ExecuteAccount(w, s.desk, LoopPlan(plan));
    var produced := Produced(w, s.desk.agentState.value, s.desk.calls, LoopPlan(plan));
    assert [] + produced == produced;
  }

  /** Two plans that do the same to this agent after these calls. */
  ghost predicate SameDeeds(w: World, status: AgentToServer, calls: seq<Call>, p: seq<Action>, q: seq<Action>) {
    CallsOf(p) == CallsOf(q) && Produced(w, status, calls, p) == Produced(w, status, calls, q)
  }

  /** A callback is always shown the message it is called about, so equal calls mean equal messages, or no calls. */
  lemma SameCallsSameMail(instanceId: string, msg: ServerToAgent, frame: Frame)
    requires CallsOf(Plan(instanceId, msg)) == CallsOf(FramePlan(instanceId, frame))
    ensures frame == Inbound(msg) || (AsksNobody(instanceId, msg) && CallsOf(FramePlan(instanceId, frame)) == [])
  {
    hide Plan, AsksNobody;
    var calls := CallsOf(Plan(instanceId, msg));
    AsksNobodyIff(instanceId, msg);
    PlannedCalls(instanceId, msg);
    if calls != [] && frame.Inbound? {
      PlannedCalls(instanceId, frame.msg);
      assert calls[0] in calls && calls[0] in CallsOf(Plan(instanceId, frame.msg));
    }
  }

  lemma ReportShows(w: World, status: AgentToServer, calls: seq<Call>)
    ensures !SameDeeds(w, status, calls, LoopPlan([ReportSelf]), LoopPlan([]))
  {
    assert [ReportSelf, Ask(OnLoop)][1..] == [Ask(OnLoop)] && [Ask(OnLoop)][1..] == [];
    assert LoopPlan([ReportSelf]) == [ReportSelf, Ask(OnLoop)] && LoopPlan([]) == [Ask(OnLoop)];
    assert calls + [] == calls;
    var loop := Produced(w, status, calls, [Ask(OnLoop)]);
    assert Produced(w, status, calls, [ReportSelf, Ask(OnLoop)]) == [Queued(FullStateReport, status)] + loop;
    assert |[Queued(FullStateReport, status)] + loop| == |loop| + 1;
  }

  lemma AlikeIff(w: World, status: AgentToServer, calls: seq<Call>, msg: ServerToAgent, frame: Frame)
    ensures var p, q := Plan(w.instanceId, msg), FramePlan(w.instanceId, frame);
            SameDeeds(w, status, calls, LoopPlan(p), LoopPlan(q)) <==> Alike(w.instanceId, msg, frame)
  {
    hide Plan, AsksNobody, CallsOf, Produced, LoopPlan;
    var p, q := Plan(w.instanceId, msg), FramePlan(w.instanceId, frame);
    LoopCalls(p);
    LoopCalls(q);
    if SameDeeds(w, status, calls, LoopPlan(p), LoopPlan(q)) {
      assert CallsOf(p) == (CallsOf(p) + [OnLoop])[..|CallsOf(p)|];
      assert CallsOf(q) == (CallsOf(q) + [OnLoop])[..|CallsOf(q)|];
      SameCallsSameMail(w.instanceId, msg, frame);
      if frame.Inbound? {
        AsksNobodyIff(w.instanceId, frame.msg);
      }
    }
    if AsksNobody(w.instanceId, msg) {
      PlanForNobody(w.instanceId, msg);
    }
    if frame.Inbound? && AsksNobody(w.instanceId, frame.msg) {
      PlanForNobody(w.instanceId, frame.msg);
    }
    ReportShows(w, status, calls);
  }

  /** A poll of an unhealthy client turns it healthy and takes no message. */
  lemma UnhealthyPollsTakeNothing(w: World, h: HttpModel.Client, s: WsModel.Socket)
    requires HealthKnown(h.desk) && !Healthy(h.desk) && HealthKnown(s.desk) && !Healthy(s.desk)
    ensures var polled := HttpModel.Poll(w, h).0;
            Healthy(polled.desk) && polled.inbox == h.inbox && polled.journal == h.journal
    ensures var polled := WsModel.Poll(w, s).0;
            Healthy(polled.desk) && polled.frames == s.frames
  {
    hide HttpModel.Attend, WsModel.ServeFrame;
  }

  /** A websocket poll of a healthy client with nothing queued, on the terms of the table. */
  lemma WsPollAccount(w: World, s: WsModel.Socket)
    requires Healthy(s.desk) && s.desk.outbox == []
    ensures var plan := LoopPlan(FramePlan(w.instanceId, w.frame(s.frames)));
            var produced := Produced(w, s.desk.agentState.value, s.desk.calls, plan);
            && Untimed(WsModel.Poll(w, s).0.desk) == Untimed(Extend(s.desk, CallsOf(plan), produced))
            && WsModel.Poll(w, s).1 == if produced == [] then Ok(Nothing) else Ok(Reply("messages pending"))
  {
    hide WsModel.ServeFrame, CallsOf, Produced;
    WsServeAccount(w, s.(desk := s.desk.(ticks := s.desk.ticks + 1)));
  }

  lemma ServingAgreesIff(w: World, h: HttpModel.Client, s: WsModel.Socket)
    requires Healthy(h.desk) && h.desk == s.desk && h.desk.outbox == [] && HttpSteps.KindOf(w, h) == HttpSteps.Serves
    ensures SamePoll(w, h, s) <==> Alike(w.instanceId, h.inbox[|h.inbox| - 1], w.frame(s.frames))
  {
    hide HttpModel.Poll, WsModel.Poll, Plan, CallsOf, Produced, Alike, FramePlan;
    HttpSteps.PollAccount(w, h);
    WsPollAccount(w, s);
    var p := LoopPlan(Plan(w.instanceId, h.inbox[|h.inbox| - 1]));
    var q := LoopPlan(FramePlan(w.instanceId, w.frame(s.frames)));
    var status, calls := h.desk.agentState.value, h.desk.calls;
    AlikeIff(w, status, calls, h.inbox[|h.inbox| - 1], w.frame(s.frames));
    ExtendsAlike(h.desk, CallsOf(p), Produced(w, status, calls, p), CallsOf(q), Produced(w, status, calls, q));
  }

  lemma ExtendsAlike(desk: Desk, calls1: seq<Call>, produced1: seq<Queued>, calls2: seq<Call>, produced2: seq<Queued>)
    requires desk.outbox == []
    ensures Untimed(Extend(desk, calls1, produced1)) == Untimed(Extend(desk, calls2, produced2)) <==>
            calls1 == calls2 && produced1 == produced2
  {
    assert [] + produced1 == produced1 && [] + produced2 == produced2;
    assert (desk.calls + calls1)[|desk.calls|..] == calls1 && (desk.calls + calls2)[|desk.calls|..] == calls2;
  }

  /** A healthy websocket client consults on_loop at every poll; an HTTP poll that serves nothing asks nobody. */
  lemma IdleHttpDiffers(w: World, h: HttpModel.Client, s: WsModel.Socket)
    requires Healthy(h.desk) && h.desk == s.desk && h.desk.outbox == [] && HttpSteps.KindOf(w, h) != HttpSteps.Serves
    ensures !SamePoll(w, h, s)
  {
    hide HttpModel.Poll, WsModel.Poll, FramePlan, CallsOf, Produced, LoopPlan;
    HttpSteps.PollAccount(w, h);
    WsPollAccount(w, s);
    LoopCalls(FramePlan(w.instanceId, w.frame(s.frames)));
    assert |WsModel.Poll(w, s).0.desk.calls| > |s.desk.calls|;
  }

  /**
   From the same agent state, outbox, callback history and clock the two polls do the same if and only if something
   is still to be flushed, the agent is not healthy yet, or both have the same mail to look at.
   */
  lemma PollsAgreeIff(w: World, h: HttpModel.Client, s: WsModel.Socket)
    requires HealthKnown(h.desk) && h.desk == s.desk
    ensures SamePoll(w, h, s) <==> h.desk.outbox != [] || !Healthy(h.desk) || SameMail(w, h, s)
  {
    hide HttpModel.Attend, WsModel.ServeFrame, Alike;
    if h.desk.outbox == [] && Healthy(h.desk) {
      hide SamePoll;
      if HttpSteps.KindOf(w, h) == HttpSteps.Serves {
        ServingAgreesIff(w, h, s);
      } else {
        IdleHttpDiffers(w, h, s);
      }
    }
  }

  /** In particular they agree on one and the same message, on top of the inbox for HTTP and next on the stream. */
  lemma PollsAgree(w: World, h: HttpModel.Client, s: WsModel.Socket)
    requires HealthKnown(h.desk) && h.desk == s.desk && h.inbox != []
    requires w.frame(s.frames) == Inbound(h.inbox[|h.inbox| - 1])
    requires w.clock(h.desk.ticks + 1) < h.lastSent + HttpModel.SERVER_POLL_DELAY
    ensures SamePoll(w, h, s)
  {
    hide SamePoll;
    PollsAgreeIff(w, h, s);
  }

  /** With nothing to hand they part ways: the websocket client consults on_loop, the HTTP client asks nobody. */
  lemma IdlePollsDiffer(w: World, h: HttpModel.Client, s: WsModel.Socket)
    requires Healthy(h.desk) && h.desk == s.desk && h.desk.outbox == []
    requires h.inbox == [] && w.frame(s.frames).Unusable?
    ensures !SamePoll(w, h, s)
    ensures HttpModel.Poll(w, h).0.desk.calls == h.desk.calls
    ensures WsModel.Poll(w, s).0.desk.calls == s.desk.calls + [OnLoop]
  {
    hide SamePoll;
    PollsAgreeIff(w, h, s);
  }
}
