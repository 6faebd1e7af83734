/**
 What a message from the server brings about, spelled out field by field and independently of the code and of the
 table: which callbacks are shown it, which of the client's messages report on it, and what becomes of the answers.
 */
module Contents {
  import opened Wrappers
  import opened Messages
  import opened Surroundings
  import opened Sessions
  import opened Plans

  // ---- Who is shown a message ----

  function When(condition: bool, call: Call): seq<Call> {
    if condition then [call] else []
  }

  /** The callbacks that a message is for, in the order in which they see it. */
  function Shown(instanceId: string, msg: ServerToAgent): seq<Call> {
    When(msg.command.Some?, OnCommand(msg)) +
    (When(msg.errorResponse.Some?, OnError(msg)) +
     (When(msg.flags % 2 == 1 && msg.instanceUid != instanceId, OnHealthCheck(msg)) +
      (When(msg.remoteConfig.Some?, OnAgentRemoteConfig(msg)) +
       (ShownOffers(msg) +
        When(msg.packagesAvailable.Some?, OnPackagesAvailable(msg))))))
  }

  /** One call for each of the three kinds of telemetry whose connection is offered. */
  function ShownOffers(msg: ServerToAgent): seq<Call> {
    match msg.connectionSettings
    case None => []
    case Some(Offers(metrics, traces, logs)) =>
      When(metrics.Some?, OnConnectionSettingsOffers(msg)) +
      (When(traces.Some?, OnConnectionSettingsOffers(msg)) +
       When(logs.Some?, OnConnectionSettingsOffers(msg)))
  }

  /** The full state is asked for by the lowest bit of the flags. */
  lemma FullStateBit(msg: ServerToAgent)
    ensures AsksFullState(msg) <==> msg.flags % 2 == 1
  {
  }

  lemma CallsOfWhen(condition: bool, action: Action, rest: seq<Action>)
    requires !action.ReportSelf?
    ensures CallsOf(If(condition, action) + rest) == When(condition, action.call) + CallsOf(rest)
  {
    CallsOfIf(condition, action, rest);
  }

  lemma CallsOfLast(condition: bool, action: Action)
    requires !action.ReportSelf?
    ensures CallsOf(If(condition, action)) == When(condition, action.call)
  {
    assert [action][1..] == [];
  }

  lemma OffersShow(msg: ServerToAgent)
    ensures CallsOf(OffersPlan(msg)) == ShownOffers(msg)
  {
    if msg.connectionSettings.Some? {
      var offers := msg.connectionSettings.value;
      var ask := Ask(OnConnectionSettingsOffers(msg));
      hide If, When, CallsOf;
      CallsOfWhen(offers.ownMetrics.Some?, ask, If(offers.ownTraces.Some?, ask) + If(offers.ownLogs.Some?, ask));
      CallsOfWhen(offers.ownTraces.Some?, ask, If(offers.ownLogs.Some?, ask));
      CallsOfLast(offers.ownLogs.Some?, ask);
    } else {
      assert CallsOf([]) == [];
    }
  }

  lemma StateShows(instanceId: string, msg: ServerToAgent, rest: seq<Action>)
    ensures var action := if msg.instanceUid == instanceId then ReportSelf else Ask(OnHealthCheck(msg));
            CallsOf(If(AsksFullState(msg), action) + rest) ==
            When(msg.flags % 2 == 1 && msg.instanceUid != instanceId, OnHealthCheck(msg)) + CallsOf(rest)
  {
    FullStateBit(msg);
    var action := if msg.instanceUid == instanceId then ReportSelf else Ask(OnHealthCheck(msg));
    CallsOfIf(AsksFullState(msg), action, rest);
  }

  /** The calls that the dispatch makes are exactly these, in this order. */
  lemma PlanShows(instanceId: string, msg: ServerToAgent)
    ensures CallsOf(Plan(instanceId, msg)) == Shown(instanceId, msg)
  {
    hide If, When, CallsOf, AsksFullState, OffersPlan, ShownOffers;
    var packages := If(msg.packagesAvailable.Some?, Ask(OnPackagesAvailable(msg)));
    var fromConfig := If(msg.remoteConfig.Some?, Ask(OnAgentRemoteConfig(msg))) + (OffersPlan(msg) + packages);
    var stateAction := if msg.instanceUid == instanceId then ReportSelf else Ask(OnHealthCheck(msg));
    var fromState := If(AsksFullState(msg), stateAction) + fromConfig;
    var fromError := If(msg.errorResponse.Some?, Mention(OnError(msg))) + fromState;
    CallsOfWhen(msg.command.Some?, Ask(OnCommand(msg)), fromError);
    CallsOfWhen(msg.errorResponse.Some?, Mention(OnError(msg)), fromState);
    StateShows(instanceId, msg, fromConfig);
    CallsOfWhen(msg.remoteConfig.Some?, Ask(OnAgentRemoteConfig(msg)), OffersPlan(msg) + packages);
    CallsOfConcat(OffersPlan(msg), packages);
    OffersShow(msg);
    CallsOfLast(msg.packagesAvailable.Some?, Ask(OnPackagesAvailable(msg)));
  }

  // ---- What a client queues, by origin ----

  /** The messages of one origin, in the order in which they were queued. */
  function MessagesOf(items: seq<Queued>, origin: Origin): seq<AgentToServer> {
    if items == [] then []
    else
      var last := |items| - 1;
      MessagesOf(items[..last], origin) + (if items[last].origin == origin then [items[last].msg] else [])
  }

  lemma MessagesOfMore(items: seq<Queued>, item: Queued, origin: Origin)
    ensures MessagesOf(items + [item], origin) ==
            MessagesOf(items, origin) + (if item.origin == origin then [item.msg] else [])
  {
    assert (items + [item])[..|items|] == items;
  }

  lemma {:induction false} MessagesOfConcat(first: seq<Queued>, second: seq<Queued>, origin: Origin)
    ensures MessagesOf(first + second, origin) == MessagesOf(first, origin) + MessagesOf(second, origin)
    decreases |second|
  {
    if second == [] {
      assert first + second == first;
    } else {
      hide MessagesOf;
      var items, item := second[..|second| - 1], second[|second| - 1];
      MessagesOfConcat(first, items, origin);
      MessagesOfMore(first + items, item, origin);
      MessagesOfMore(items, item, origin);
      Associate(first, items, [item]);
      assert second == items + [item];
    }
  }

  lemma MessagesOfOne(item: Queued, origin: Origin)
    ensures MessagesOf([item], origin) == if item.origin == origin then [item.msg] else []
  {
    assert [item][..0] == [];
  }

  lemma {:induction false} MessagesOfMember(items: seq<Queued>, item: Queued)
    requires item in items
    ensures item.msg in MessagesOf(items, item.origin)
  {
    var last := |items| - 1;
    if item in items[..last] {
      MessagesOfMember(items[..last], item);
    }
  }

  // ---- Reports of the full state ----

  /** The message asks this very agent for its full state. */
  predicate WantsReport(instanceId: string, msg: ServerToAgent) {
    msg.flags % 2 == 1 && msg.instanceUid == instanceId
  }

  function SelfReports(plan: seq<Action>): nat
    decreases |plan|
  {
    if plan == [] then 0 else (if plan[0].ReportSelf? then 1 else 0) + SelfReports(plan[1..])
  }

  lemma {:induction false} SelfReportsConcat(first: seq<Action>, second: seq<Action>)
    ensures SelfReports(first + second) == SelfReports(first) + SelfReports(second)
    decreases |first|
  {
    if first == [] {
      assert first + second == second;
    } else {
      SelfReportsConcat(first[1..], second);
      assert (first + second)[1..] == first[1..] + second;
    }
  }

  lemma SelfReportsIf(condition: bool, action: Action, rest: seq<Action>)
    ensures SelfReports(If(condition, action) + rest) ==
            (if condition && action.ReportSelf? then 1 else 0) + SelfReports(rest)
  {
    SelfReportsConcat(If(condition, action), rest);
    assert [action][1..] == [];
  }

  lemma OffersReportNothing(msg: ServerToAgent)
    ensures SelfReports(OffersPlan(msg)) == 0
  {
    if msg.connectionSettings.Some? {
      var offers := msg.connectionSettings.value;
      var ask := Ask(OnConnectionSettingsOffers(msg));
      SelfReportsIf(offers.ownMetrics.Some?, ask, If(offers.ownTraces.Some?, ask) + If(offers.ownLogs.Some?, ask));
      SelfReportsIf(offers.ownTraces.Some?, ask, If(offers.ownLogs.Some?, ask));
    }
  }

  lemma PlanReports(instanceId: string, msg: ServerToAgent)
    ensures SelfReports(LoopPlan(Plan(instanceId, msg))) == if WantsReport(instanceId, msg) then 1 else 0
  {
    FullStateBit(msg);
    OffersReportNothing(msg);
    var stateAction := if msg.instanceUid == instanceId then ReportSelf else Ask(OnHealthCheck(msg));
    var packages := If(msg.packagesAvailable.Some?, Ask(OnPackagesAvailable(msg)));
    var fromConfig := If(msg.remoteConfig.Some?, Ask(OnAgentRemoteConfig(msg))) + (OffersPlan(msg) + packages);
    var fromState := If(AsksFullState(msg), stateAction) + fromConfig;
    var fromError := If(msg.errorResponse.Some?, Mention(OnError(msg))) + fromState;
    assert [Ask(OnLoop)][1..] == [] && SelfReports([Ask(OnLoop)]) == 0;
    assert SelfReports(packages) == 0;
    SelfReportsConcat(Plan(instanceId, msg), [Ask(OnLoop)]);
    hide OffersPlan, AsksFullState, SelfReports;
    SelfReportsIf(msg.command.Some?, Ask(OnCommand(msg)), fromError);
    SelfReportsIf(msg.errorResponse.Some?, Mention(OnError(msg)), fromState);
    SelfReportsIf(AsksFullState(msg), stateAction, fromConfig);
    SelfReportsIf(msg.remoteConfig.Some?, Ask(OnAgentRemoteConfig(msg)), OffersPlan(msg) + packages);
    SelfReportsConcat(OffersPlan(msg), packages);
  }

  lemma {:induction false} ReportsQueued(w: World, status: AgentToServer, calls: seq<Call>, plan: seq<Action>)
    ensures |MessagesOf(Produced(w, status, calls, plan), FullStateReport)| == SelfReports(plan)
    decreases |plan|
  {
    if plan != [] {
      var produced, calls' := ProducedBy(w, status, calls, plan[0]), calls + CallOf(plan[0]);
      ReportsQueued(w, status, calls', plan[1..]);
      MessagesOfConcat(produced, Produced(w, status, calls', plan[1..]), FullStateReport);
      if produced != [] {
        MessagesOfOne(produced[0], FullStateReport);
        assert produced == [produced[0]];
      }
    }
  }

  // ---- Answers of the embedder ----

  /** A callback whose answer is sent on, if it has one. */
  predicate Answerable(call: Call) {
    !call.GetConfiguration? && !call.GetFeatures? && !call.OnError?
  }

  /** All that callbacks answered in the course of these calls, in order. */
  function Answers(w: World, calls: seq<Call>): seq<AgentToServer> {
    if calls == [] then []
    else
      var last := |calls| - 1;
      Answers(w, calls[..last]) +
      (if Answerable(calls[last]) && w.reply(calls).Answered? && w.reply(calls).value.Some?
       then [w.reply(calls).value.value] else [])
  }

  lemma AnswersMore(w: World, calls: seq<Call>, call: Call)
    ensures Answers(w, calls + [call]) == Answers(w, calls) +
              (if Answerable(call) && w.reply(calls + [call]).Answered? && w.reply(calls + [call]).value.Some?
               then [w.reply(calls + [call]).value.value] else [])
  {
    assert (calls + [call])[..|calls|] == calls;
  }

  /** A plan asks only callbacks that answer, and mentions things only to one that does not. */
  ghost predicate Voiced(plan: seq<Action>) {
    forall i | 0 <= i < |plan| && !plan[i].ReportSelf? :: plan[i].Ask? <==> Answerable(plan[i].call)
  }

  lemma VoicedConcat(first: seq<Action>, second: seq<Action>)
    requires Voiced(first) && Voiced(second)
    ensures Voiced(first + second)
  {
  }

  lemma VoicedIf(condition: bool, action: Action)
    requires action.ReportSelf? || (action.Ask? <==> Answerable(action.call))
    ensures Voiced(If(condition, action))
  {
  }

  lemma VoicedOffers(msg: ServerToAgent)
    ensures Voiced(OffersPlan(msg))
  {
    if msg.connectionSettings.Some? {
      var offers := msg.connectionSettings.value;
      var ask := Ask(OnConnectionSettingsOffers(msg));
      VoicedIf(offers.ownMetrics.Some?, ask);
      VoicedIf(offers.ownTraces.Some?, ask);
      VoicedIf(offers.ownLogs.Some?, ask);
      hide Voiced, If;
      VoicedConcat(If(offers.ownTraces.Some?, ask), If(offers.ownLogs.Some?, ask));
      VoicedConcat(If(offers.ownMetrics.Some?, ask), If(offers.ownTraces.Some?, ask) + If(offers.ownLogs.Some?, ask));
    }
  }

  lemma VoicedPlan(instanceId: string, msg: ServerToAgent)
    ensures Voiced(LoopPlan(Plan(instanceId, msg)))
  {
    assert Voiced([Ask(OnLoop)]);
    hide Voiced, If, OffersPlan;
    var stateAction := if msg.instanceUid == instanceId then ReportSelf else Ask(OnHealthCheck(msg));
    VoicedIf(msg.command.Some?, Ask(OnCommand(msg)));
    VoicedIf(msg.errorResponse.Some?, Mention(OnError(msg)));
    VoicedIf(AsksFullState(msg), stateAction);
    VoicedIf(msg.remoteConfig.Some?, Ask(OnAgentRemoteConfig(msg)));
    VoicedOffers(msg);
    VoicedIf(msg.packagesAvailable.Some?, Ask(OnPackagesAvailable(msg)));
    var fromOffers := OffersPlan(msg) + If(msg.packagesAvailable.Some?, Ask(OnPackagesAvailable(msg)));
    var fromConfig := If(msg.remoteConfig.Some?, Ask(OnAgentRemoteConfig(msg))) + fromOffers;
    var fromState := If(AsksFullState(msg), stateAction) + fromConfig;
    var fromError := If(msg.errorResponse.Some?, Mention(OnError(msg))) + fromState;
    VoicedConcat(OffersPlan(msg), If(msg.packagesAvailable.Some?, Ask(OnPackagesAvailable(msg))));
    VoicedConcat(If(msg.remoteConfig.Some?, Ask(OnAgentRemoteConfig(msg))), fromOffers);
    VoicedConcat(If(AsksFullState(msg), stateAction), fromConfig);
    VoicedConcat(If(msg.errorResponse.Some?, Mention(OnError(msg))), fromState);
    VoicedConcat(If(msg.command.Some?, Ask(OnCommand(msg))), fromError);
    VoicedConcat(Plan(instanceId, msg), [Ask(OnLoop)]);
  }

  lemma AnswerQueued(w: World, status: AgentToServer, calls: seq<Call>, action: Action)
    requires !action.ReportSelf? ==> (action.Ask? <==> Answerable(action.call))
    ensures Answers(w, calls + CallOf(action)) ==
            Answers(w, calls) + MessagesOf(ProducedBy(w, status, calls, action), CallbackReply)
  {
    var produced := ProducedBy(w, status, calls, action);
    if action.ReportSelf? {
      assert calls + [] == calls;
    } else {
      AnswersMore(w, calls, action.call);
    }
    if produced != [] {
      MessagesOfOne(produced[0], CallbackReply);
      assert produced == [produced[0]];
    }
  }

  /** What a plan queues as answers is what its calls are answered. */
  lemma {:induction false} AnswersQueued(w: World, status: AgentToServer, calls: seq<Call>, plan: seq<Action>)
    requires Voiced(plan)
    ensures Answers(w, calls + CallsOf(plan)) ==
            Answers(w, calls) + MessagesOf(Produced(w, status, calls, plan), CallbackReply)
    decreases |plan|
  {
    if plan == [] {
      assert calls + [] == calls;
    } else {
      hide Answers, MessagesOf, ProducedBy, Answerable;
      var calls', rest := calls + CallOf(plan[0]), plan[1..];
      var first, more := ProducedBy(w, status, calls, plan[0]), Produced(w, status, calls', rest);
      assert Produced(w, status, calls, plan) == first + more;
      assert CallsOf(plan) == CallOf(plan[0]) + CallsOf(rest);
      AnswerQueued(w, status, calls, plan[0]);
      AnswersQueued(w, status, calls', rest);
      hide Produced, CallsOf;
      Associate(calls, CallOf(plan[0]), CallsOf(rest));
      MessagesOfConcat(first, more, CallbackReply);
      Associate(Answers(w, calls), MessagesOf(first, CallbackReply), MessagesOf(more, CallbackReply));
    }
  }

  lemma Associate<T>(a: seq<T>, b: seq<T>, c: seq<T>)
    ensures (a + b) + c == a + (b + c)
  {
  }

  // ---- What one service and what all services come to ----

  /** All calls that these messages bring about, each shown around and followed by on_loop. */
  function ShownAll(instanceId: string, msgs: seq<ServerToAgent>): seq<Call> {
    if msgs == [] then []
    else
      var last := |msgs| - 1;
      ShownAll(instanceId, msgs[..last]) + (Shown(instanceId, msgs[last]) + [OnLoop])
  }

  /** How many of these messages ask this very agent for its full state. */
  function Wanting(instanceId: string, msgs: seq<ServerToAgent>): nat {
    if msgs == [] then 0
    else
      var last := |msgs| - 1;
      Wanting(instanceId, msgs[..last]) + (if WantsReport(instanceId, msgs[last]) then 1 else 0)
  }

  lemma OneMoreShown(instanceId: string, msgs: seq<ServerToAgent>, msg: ServerToAgent)
    ensures ShownAll(instanceId, msgs + [msg]) == ShownAll(instanceId, msgs) + (Shown(instanceId, msg) + [OnLoop])
    ensures Wanting(instanceId, msgs + [msg]) ==
            Wanting(instanceId, msgs) + (if WantsReport(instanceId, msg) then 1 else 0)
  {
    hide Shown, WantsReport;
    assert (msgs + [msg])[..|msgs|] == msgs;
  }

  /** A message served: who sees it, which answers are queued, and whether a report of the full state is. */
  lemma ServiceTells(w: World, status: AgentToServer, calls: seq<Call>, msg: ServerToAgent)
    ensures var plan := LoopPlan(Plan(w.instanceId, msg));
            var produced := Produced(w, status, calls, plan);
            && CallsOf(plan) == Shown(w.instanceId, msg) + [OnLoop]
            && Answers(w, calls + CallsOf(plan)) == Answers(w, calls) + MessagesOf(produced, CallbackReply)
            && |MessagesOf(produced, FullStateReport)| == if WantsReport(w.instanceId, msg) then 1 else 0
  {
    hide Plan, LoopPlan, CallsOf, Produced, Shown, Answers, MessagesOf, WantsReport, Voiced;
    var plan := LoopPlan(Plan(w.instanceId, msg));
    LoopCalls(Plan(w.instanceId, msg));
    PlanShows(w.instanceId, msg);
    VoicedPlan(w.instanceId, msg);
    AnswersQueued(w, status, calls, plan);
    PlanReports(w.instanceId, msg);
    ReportsQueued(w, status, calls, plan);
  }

  /** A desk whose calls, answers queued and reports queued are those of what it was shown. */
  ghost predicate Told(w: World, desk: Desk, shown: seq<Call>, wanted: nat) {
    && desk.calls == [GetConfiguration, GetFeatures] + shown
    && MessagesOf(desk.enqueued, CallbackReply) == Answers(w, desk.calls)
    && |MessagesOf(desk.enqueued, FullStateReport)| == wanted
  }

  lemma NothingToldYet(w: World, desk: Desk)
    requires desk.calls == [GetConfiguration, GetFeatures] && desk.enqueued == []
    ensures Told(w, desk, [], 0)
  {
    assert [GetConfiguration, GetFeatures] + [] == [GetConfiguration, GetFeatures];
    assert [GetConfiguration, GetFeatures] == [GetConfiguration] + [GetFeatures];
    AnswersMore(w, [], GetConfiguration);
    AnswersMore(w, [GetConfiguration], GetFeatures);
    assert [] + [GetConfiguration] == [GetConfiguration];
  }

  /** A message that the client makes up on its own account changes nothing of that. */
  lemma OwnMessageTells(w: World, desk: Desk, desk': Desk, item: Queued, shown: seq<Call>, wanted: nat)
    requires Told(w, desk, shown, wanted) && !item.origin.CallbackReply? && !item.origin.FullStateReport?
    requires desk'.enqueued == desk.enqueued + [item] && desk'.calls == desk.calls
    ensures Told(w, desk', shown, wanted)
  {
    hide Answers, MessagesOf;
    MessagesOfMore(desk.enqueued, item, CallbackReply);
    MessagesOfMore(desk.enqueued, item, FullStateReport);
  }

  lemma PlanTells(w: World, desk: Desk, desk': Desk, status: AgentToServer, plan: seq<Action>,
      shown: seq<Call>, wanted: nat)
    requires Told(w, desk, shown, wanted) && Voiced(plan)
    requires desk'.calls == desk.calls + CallsOf(plan)
    requires desk'.enqueued == desk.enqueued + Produced(w, status, desk.calls, plan)
    ensures Told(w, desk', shown + CallsOf(plan), wanted + SelfReports(plan))
  {
    hide CallsOf, Produced, Answers, MessagesOf, Voiced, SelfReports;
    AnswersQueued(w, status, desk.calls, plan);
    ReportsQueued(w, status, desk.calls, plan);
    MessagesOfConcat(desk.enqueued, Produced(w, status, desk.calls, plan), CallbackReply);
    MessagesOfConcat(desk.enqueued, Produced(w, status, desk.calls, plan), FullStateReport);
    Associate([GetConfiguration, GetFeatures], shown, CallsOf(plan));
  }

  // ---- What the client's own messages hold, but for their number, capabilities and flags ----

  /** The agent's full state: the identity, the configuration as answered at the start, and its health since then. */
  predicate IsFullState(w: World, msg: AgentToServer, healthy: bool) {
    && msg.instanceUid == w.instanceId
    && msg.agentDescription == Some(w.description)
    && msg.health == Some(AgentHealth(healthy, w.clock(0) % 0x1_0000_0000_0000_0000, ""))
    && msg.effectiveConfig == Some(if w.configuration([GetConfiguration]).Answered?
                                   then w.configuration([GetConfiguration]).value else None)
    && msg.remoteConfigStatus == Some("") && msg.packageStatuses == Some("")
    && msg.agentDisconnect == None
  }

  /** The agent's id and nothing else, unless its health, good since this clock reading. */
  predicate IsBrief(w: World, msg: AgentToServer, health: Option<AgentHealth>) {
    && msg.instanceUid == w.instanceId
    && msg.health == health
    && msg.agentDescription == None && msg.effectiveConfig == None
    && msg.remoteConfigStatus == None && msg.packageStatuses == None
    && msg.agentDisconnect == None
  }

  /** Each message is what its origin promises; `reading` is the clock reading of the health report. */
  predicate WellMade(w: World, reading: nat, item: Queued) {
    match item.origin
    case FullStateHandshake => IsFullState(w, item.msg, false)
    case HealthReport =>
      IsBrief(w, item.msg, Some(AgentHealth(true, w.clock(reading) % 0x1_0000_0000_0000_0000, "")))
    case Heartbeat => IsBrief(w, item.msg, None)
    case FullStateReport => IsFullState(w, item.msg, true)
    case CallbackReply => true
  }

  ghost predicate AllWellMade(w: World, reading: nat, items: seq<Queued>) {
    forall i | 0 <= i < |items| :: WellMade(w, reading, items[i])
  }

  lemma WellMadeConcat(w: World, reading: nat, first: seq<Queued>, second: seq<Queued>)
    requires AllWellMade(w, reading, first) && AllWellMade(w, reading, second)
    ensures AllWellMade(w, reading, first + second)
  {
    hide WellMade;
  }
}
