/**
 A second account of the dispatch, by table: a message from the server fixes a plan, which lists in order
 whom to ask and when to report, and carrying out the plan is all the dispatch does.
 */
module Plans {
  import opened Messages
  import opened Surroundings
  import opened Sessions
  import HttpModel

  /** Ask a callback and queue its reply, mention something to a callback, or queue the agent's full state. */
  datatype Action = Ask(call: Call) | Mention(call: Call) | ReportSelf

  function If(condition: bool, action: Action): seq<Action> {
    if condition then [action] else []
  }

  /** The server wants this very agent's full state, and not that of one of its children. */
  predicate AsksThisAgent(w: World, msg: ServerToAgent) {
    AsksFullState(msg) && msg.instanceUid == w.instanceId
  }

  function OffersPlan(msg: ServerToAgent): seq<Action> {
    if msg.connectionSettings.None? then []
    else
      var offers := msg.connectionSettings.value;
      If(offers.ownMetrics.Some?, Ask(OnConnectionSettingsOffers(msg))) +
      (If(offers.ownTraces.Some?, Ask(OnConnectionSettingsOffers(msg))) +
       If(offers.ownLogs.Some?, Ask(OnConnectionSettingsOffers(msg))))
  }

  function Plan(instanceId: string, msg: ServerToAgent): seq<Action> {
    If(msg.command.Some?, Ask(OnCommand(msg))) +
    (If(msg.errorResponse.Some?, Mention(OnError(msg))) +
     (If(AsksFullState(msg), if msg.instanceUid == instanceId then ReportSelf else Ask(OnHealthCheck(msg))) +
      (If(msg.remoteConfig.Some?, Ask(OnAgentRemoteConfig(msg))) +
       (OffersPlan(msg) +
        If(msg.packagesAvailable.Some?, Ask(OnPackagesAvailable(msg)))))))
  }

  function Act(w: World, desk: Desk, action: Action): Desk {
    match action
    case Ask(call) => Consult(w, desk, call)
    case Mention(call) => Tell(desk, call)
    case ReportSelf => ReportStatus(w, desk, FullStateReport)
  }

  function Execute(w: World, desk: Desk, plan: seq<Action>): Desk
    decreases |plan|
  {
    if plan == [] then desk else Execute(w, Act(w, desk, plan[0]), plan[1..])
  }

  lemma {:induction false} ExecuteConcat(w: World, desk: Desk, first: seq<Action>, second: seq<Action>)
    ensures Execute(w, desk, first + second) == Execute(w, Execute(w, desk, first), second)
    decreases |first|
  {
    if first == [] {
      assert first + second == second;
    } else {
      assert (first + second)[1..] == first[1..] + second;
      ExecuteConcat(w, Act(w, desk, first[0]), first[1..], second);
    }
  }

  lemma ExecuteIf(w: World, desk: Desk, condition: bool, action: Action, rest: seq<Action>)
    ensures Execute(w, desk, If(condition, action) + rest) ==
            Execute(w, if condition then Act(w, desk, action) else desk, rest)
  {
    ExecuteConcat(w, desk, If(condition, action), rest);
    assert [action][1..] == [];
  }

  lemma OffersFollowPlan(w: World, desk: Desk, msg: ServerToAgent)
    ensures HttpModel.OfferConnections(w, desk, msg) == Execute(w, desk, OffersPlan(msg))
  {
    if msg.connectionSettings.Some? {
      var offers := msg.connectionSettings.value;
      var ask := Ask(OnConnectionSettingsOffers(msg));
      var metrics := HttpModel.ConsultIf(w, desk, offers.ownMetrics.Some?, ask.call);
      var traces := HttpModel.ConsultIf(w, metrics, offers.ownTraces.Some?, ask.call);
      ExecuteIf(w, desk, offers.ownMetrics.Some?, ask,
        If(offers.ownTraces.Some?, ask) + If(offers.ownLogs.Some?, ask));
      ExecuteIf(w, metrics, offers.ownTraces.Some?, ask, If(offers.ownLogs.Some?, ask));
      ExecuteIf(w, traces, offers.ownLogs.Some?, ask, []);
      assert If(offers.ownLogs.Some?, ask) + [] == If(offers.ownLogs.Some?, ask);
    }
  }

  /** The HTTP client's dispatch carries out the message's plan and does nothing else. */
  lemma DispatchFollowsPlan(w: World, desk: Desk, msg: ServerToAgent)
    ensures HttpModel.Dispatch(w, desk, msg) == Execute(w, desk, Plan(w.instanceId, msg))
  {
    var packages := If(msg.packagesAvailable.Some?, Ask(OnPackagesAvailable(msg)));
    var fromOffers := OffersPlan(msg) + packages;
    var fromConfig := If(msg.remoteConfig.Some?, Ask(OnAgentRemoteConfig(msg))) + fromOffers;
    var stateAction := if msg.instanceUid == w.instanceId then ReportSelf else Ask(OnHealthCheck(msg));
    var fromState := If(AsksFullState(msg), stateAction) + fromConfig;
    var fromError := If(msg.errorResponse.Some?, Mention(OnError(msg))) + fromState;

    var commanded := HttpModel.ConsultIf(w, desk, msg.command.Some?, OnCommand(msg));
    ExecuteIf(w, desk, msg.command.Some?, Ask(OnCommand(msg)), fromError);
    var relayed := if msg.errorResponse.Some? then Tell(commanded, OnError(msg)) else commanded;
    ExecuteIf(w, commanded, msg.errorResponse.Some?, Mention(OnError(msg)), fromState);
    var reported := HttpModel.ReportFullState(w, relayed, msg);
    ExecuteIf(w, relayed, AsksFullState(msg), stateAction, fromConfig);
    var configured := HttpModel.ConsultIf(w, reported, msg.remoteConfig.Some?, OnAgentRemoteConfig(msg));
    ExecuteIf(w, reported, msg.remoteConfig.Some?, Ask(OnAgentRemoteConfig(msg)), fromOffers);
    ExecuteConcat(w, configured, OffersPlan(msg), packages);
    OffersFollowPlan(w, configured, msg);
    var offered := HttpModel.OfferConnections(w, configured, msg);
    ExecuteIf(w, offered, msg.packagesAvailable.Some?, Ask(OnPackagesAvailable(msg)), []);
    assert packages + [] == packages;
  }

  // ---- What a plan amounts to, once the agent state is known ----

  function CallOf(action: Action): seq<Call> {
    if action.ReportSelf? then [] else [action.call]
  }

  function CallsOf(plan: seq<Action>): seq<Call>
    decreases |plan|
  {
    if plan == [] then [] else CallOf(plan[0]) + CallsOf(plan[1..])
  }

  function ProducedBy(w: World, status: AgentToServer, calls: seq<Call>, action: Action): seq<Queued> {
    match action
    case Ask(call) =>
      (match w.reply(calls + [call])
       case Answered(Some(msg)) => [Queued(CallbackReply, msg)]
       case Answered(None) => []
       case Refused(_) => [])
    case Mention(_) => []
    case ReportSelf => [Queued(FullStateReport, status)]
  }

  function Produced(w: World, status: AgentToServer, calls: seq<Call>, plan: seq<Action>): seq<Queued>
    decreases |plan|
  {
    if plan == [] then []
    else
      ProducedBy(w, status, calls, plan[0]) + Produced(w, status, calls + CallOf(plan[0]), plan[1..])
  }

  function Extend(desk: Desk, calls: seq<Call>, produced: seq<Queued>): Desk {
    desk.(calls := desk.calls + calls, outbox := desk.outbox + produced, enqueued := desk.enqueued + produced)
  }

  lemma ExtendTwice(desk: Desk, calls1: seq<Call>, produced1: seq<Queued>, calls2: seq<Call>, produced2: seq<Queued>)
    ensures Extend(Extend(desk, calls1, produced1), calls2, produced2) ==
            Extend(desk, calls1 + calls2, produced1 + produced2)
  {
    assert (desk.calls + calls1) + calls2 == desk.calls + (calls1 + calls2);
    assert (desk.outbox + produced1) + produced2 == desk.outbox + (produced1 + produced2);
    assert (desk.enqueued + produced1) + produced2 == desk.enqueued + (produced1 + produced2);
  }

  lemma ActAccount(w: World, desk: Desk, action: Action)
    requires desk.agentState.Some?
    ensures Act(w, desk, action) ==
            Extend(desk, CallOf(action), ProducedBy(w, desk.agentState.value, desk.calls, action))
  {
    assert desk.calls + [] == desk.calls;
    assert desk.outbox + [] == desk.outbox && desk.enqueued + [] == desk.enqueued;
  }

  /** A plan makes its calls in order and queues what they and the agent itself answer, in the same order; no more. */
  lemma {:induction false} ExecuteAccount(w: World, desk: Desk, plan: seq<Action>)
    requires desk.agentState.Some?
    ensures Execute(w, desk, plan) ==
            Extend(desk, CallsOf(plan), Produced(w, desk.agentState.value, desk.calls, plan))
    decreases |plan|
  {
    if plan == [] {
      assert desk.calls + [] == desk.calls;
      assert desk.outbox + [] == desk.outbox && desk.enqueued + [] == desk.enqueued;
    } else {
      var status, acted := desk.agentState.value, Act(w, desk, plan[0]);
      ActAccount(w, desk, plan[0]);
      ExecuteAccount(w, acted, plan[1..]);
      ExtendTwice(desk, CallOf(plan[0]), ProducedBy(w, status, desk.calls, plan[0]),
        CallsOf(plan[1..]), Produced(w, status, acted.calls, plan[1..]));
    }
  }

  lemma {:induction false} ProducedOrigins(w: World, status: AgentToServer, calls: seq<Call>, plan: seq<Action>)
    ensures forall q | q in Produced(w, status, calls, plan) ::
      q.origin == CallbackReply || q == Queued(FullStateReport, status)
    decreases |plan|
  {
    if plan != [] {
      ProducedOrigins(w, status, calls + CallOf(plan[0]), plan[1..]);
    }
  }

  predicate AboutMessage(call: Call, msg: ServerToAgent) {
    !call.GetConfiguration? && !call.GetFeatures? && !call.OnLoop? && call.msg == msg
  }

  /** Whatever is asked or mentioned shows this message, and is no start-up question and no on_loop. */
  ghost predicate Concerns(plan: seq<Action>, msg: ServerToAgent) {
    forall i | 0 <= i < |plan| :: plan[i].ReportSelf? || AboutMessage(plan[i].call, msg)
  }

  lemma {:induction false} ConcerningCalls(plan: seq<Action>, msg: ServerToAgent)
    requires Concerns(plan, msg)
    ensures forall call | call in CallsOf(plan) :: AboutMessage(call, msg)
    decreases |plan|
  {
    if plan != [] {
      assert Concerns(plan[1..], msg);
      ConcerningCalls(plan[1..], msg);
    }
  }

  lemma ConcernsConcat(first: seq<Action>, second: seq<Action>, msg: ServerToAgent)
    requires Concerns(first, msg) && Concerns(second, msg)
    ensures Concerns(first + second, msg)
  {
  }

  lemma ConcernsIf(condition: bool, action: Action, msg: ServerToAgent)
    requires action.ReportSelf? || AboutMessage(action.call, msg)
    ensures Concerns(If(condition, action), msg)
  {
  }

  lemma ConcernsOffers(msg: ServerToAgent)
    ensures Concerns(OffersPlan(msg), msg)
  {
    if msg.connectionSettings.Some? {
      var offers := msg.connectionSettings.value;
      var ask := Ask(OnConnectionSettingsOffers(msg));
      ConcernsIf(offers.ownMetrics.Some?, ask, msg);
      ConcernsIf(offers.ownTraces.Some?, ask, msg);
      ConcernsIf(offers.ownLogs.Some?, ask, msg);
      hide Concerns, If;
      var tracesAndLogs := If(offers.ownTraces.Some?, ask) + If(offers.ownLogs.Some?, ask);
      ConcernsConcat(If(offers.ownTraces.Some?, ask), If(offers.ownLogs.Some?, ask), msg);
      ConcernsConcat(If(offers.ownMetrics.Some?, ask), tracesAndLogs, msg);
    }
  }

  /** Every call a message brings about shows that very message. */
  lemma PlannedCalls(instanceId: string, msg: ServerToAgent)
    ensures forall call | call in CallsOf(Plan(instanceId, msg)) :: AboutMessage(call, msg)
  {
    var stateAction := if msg.instanceUid == instanceId then ReportSelf else Ask(OnHealthCheck(msg));
    ConcernsIf(msg.command.Some?, Ask(OnCommand(msg)), msg);
    ConcernsIf(msg.errorResponse.Some?, Mention(OnError(msg)), msg);
    ConcernsIf(AsksFullState(msg), stateAction, msg);
    ConcernsIf(msg.remoteConfig.Some?, Ask(OnAgentRemoteConfig(msg)), msg);
    ConcernsOffers(msg);
    ConcernsIf(msg.packagesAvailable.Some?, Ask(OnPackagesAvailable(msg)), msg);
    hide Concerns, If, OffersPlan;
    var fromOffers := OffersPlan(msg) + If(msg.packagesAvailable.Some?, Ask(OnPackagesAvailable(msg)));
    var fromConfig := If(msg.remoteConfig.Some?, Ask(OnAgentRemoteConfig(msg))) + fromOffers;
    var fromState := If(AsksFullState(msg), stateAction) + fromConfig;
    var fromError := If(msg.errorResponse.Some?, Mention(OnError(msg))) + fromState;
    ConcernsConcat(OffersPlan(msg), If(msg.packagesAvailable.Some?, Ask(OnPackagesAvailable(msg))), msg);
    ConcernsConcat(If(msg.remoteConfig.Some?, Ask(OnAgentRemoteConfig(msg))), fromOffers, msg);
    ConcernsConcat(If(AsksFullState(msg), stateAction), fromConfig, msg);
    ConcernsConcat(If(msg.errorResponse.Some?, Mention(OnError(msg))), fromState, msg);
    ConcernsConcat(If(msg.command.Some?, Ask(OnCommand(msg))), fromError, msg);
    ConcerningCalls(Plan(instanceId, msg), msg);
  }

  // ---- Messages that ask the embedder nothing ----

  predicate OffersNothing(msg: ServerToAgent) {
    msg.connectionSettings.None? ||
    var offers := msg.connectionSettings.value;
    offers.ownMetrics.None? && offers.ownTraces.None? && offers.ownLogs.None?
  }

  /** No part of the message is for a callback to look at. */
  predicate AsksNobody(instanceId: string, msg: ServerToAgent) {
    && msg.command.None? && msg.errorResponse.None? && msg.remoteConfig.None? && msg.packagesAvailable.None?
    && OffersNothing(msg)
    && (AsksFullState(msg) ==> msg.instanceUid == instanceId)
  }

  lemma {:induction false} CallsOfConcat(first: seq<Action>, second: seq<Action>)
    ensures CallsOf(first + second) == CallsOf(first) + CallsOf(second)
    decreases |first|
  {
    if first == [] {
      assert first + second == second;
    } else {
      CallsOfConcat(first[1..], second);
      assert (first + second)[1..] == first[1..] + second;
    }
  }

  lemma CallsOfIf(condition: bool, action: Action, rest: seq<Action>)
    ensures CallsOf(If(condition, action) + rest) == (if condition then CallOf(action) else []) + CallsOf(rest)
  {
    CallsOfConcat(If(condition, action), rest);
    assert [action][1..] == [];
  }

  lemma OffersNothingIff(msg: ServerToAgent)
    ensures CallsOf(OffersPlan(msg)) == [] <==> OffersNothing(msg)
  {
    if msg.connectionSettings.Some? {
      var offers := msg.connectionSettings.value;
      var ask := Ask(OnConnectionSettingsOffers(msg));
      CallsOfIf(offers.ownMetrics.Some?, ask, If(offers.ownTraces.Some?, ask) + If(offers.ownLogs.Some?, ask));
      CallsOfIf(offers.ownTraces.Some?, ask, If(offers.ownLogs.Some?, ask));
    }
  }

  /** A plan calls on nobody exactly if the message holds nothing for a callback. */
  lemma AsksNobodyIff(instanceId: string, msg: ServerToAgent)
    ensures CallsOf(Plan(instanceId, msg)) == [] <==> AsksNobody(instanceId, msg)
  {
    var stateAction := if msg.instanceUid == instanceId then ReportSelf else Ask(OnHealthCheck(msg));
    var packages := If(msg.packagesAvailable.Some?, Ask(OnPackagesAvailable(msg)));
    var fromConfig := If(msg.remoteConfig.Some?, Ask(OnAgentRemoteConfig(msg))) + (OffersPlan(msg) + packages);
    var fromState := If(AsksFullState(msg), stateAction) + fromConfig;
    var fromError := If(msg.errorResponse.Some?, Mention(OnError(msg))) + fromState;
    OffersNothingIff(msg);
    hide OffersPlan;
    CallsOfIf(msg.command.Some?, Ask(OnCommand(msg)), fromError);
    CallsOfIf(msg.errorResponse.Some?, Mention(OnError(msg)), fromState);
    CallsOfIf(AsksFullState(msg), stateAction, fromConfig);
    CallsOfIf(msg.remoteConfig.Some?, Ask(OnAgentRemoteConfig(msg)), OffersPlan(msg) + packages);
    CallsOfConcat(OffersPlan(msg), packages);
  }

  lemma PlanForNobody(instanceId: string, msg: ServerToAgent)
    requires AsksNobody(instanceId, msg)
    ensures Plan(instanceId, msg) == If(AsksFullState(msg), ReportSelf)
  {
  }

  // ---- A plan followed by on_loop ----

  function LoopPlan(plan: seq<Action>): seq<Action> {
    plan + [Ask(OnLoop)]
  }

  lemma LoopCalls(plan: seq<Action>)
    ensures CallsOf(LoopPlan(plan)) == CallsOf(plan) + [OnLoop]
  {
    CallsOfConcat(plan, [Ask(OnLoop)]);
    assert [Ask(OnLoop)][1..] == [];
  }

  /** What the callbacks are asked, and what they and the agent itself answer, while one message is served. */
  ghost predicate Service(status: AgentToServer, calls: seq<Call>, produced: seq<Queued>) {
    && multiset(calls)[OnLoop] == 1
    && multiset(calls)[GetConfiguration] == 0 && multiset(calls)[GetFeatures] == 0
    && forall i | 0 <= i < |produced| ::
      produced[i].origin == CallbackReply || produced[i] == Queued(FullStateReport, status)
  }

  /** The start-up questions were asked first, once each, and a message served costs one on_loop. */
  ghost predicate Asked(calls: seq<Call>, processed: nat) {
    && |calls| >= 2 && calls[0] == GetConfiguration && calls[1] == GetFeatures
    && multiset(calls)[GetConfiguration] == 1 && multiset(calls)[GetFeatures] == 1
    && multiset(calls)[OnLoop] == processed
  }

  lemma AskedMore(calls: seq<Call>, processed: nat, more: seq<Call>, status: AgentToServer, produced: seq<Queued>)
    requires Asked(calls, processed) && Service(status, more, produced)
    ensures Asked(calls + more, processed + 1)
  {
  }

  /** Showing a message and then consulting on_loop is a service: one on_loop, no start-up question. */
  lemma LoopService(w: World, status: AgentToServer, calls: seq<Call>, plan: seq<Action>)
    requires OnLoop !in CallsOf(plan) && GetConfiguration !in CallsOf(plan) && GetFeatures !in CallsOf(plan)
    ensures Service(status, CallsOf(LoopPlan(plan)), Produced(w, status, calls, LoopPlan(plan)))
  {
    hide LoopPlan;
    LoopCalls(plan);
    ProducedOrigins(w, status, calls, LoopPlan(plan));
    var asked := multiset(CallsOf(plan));
    assert OnLoop !in asked && GetConfiguration !in asked && GetFeatures !in asked;
  }
}
