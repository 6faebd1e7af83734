/**
 The inbox is a stack: left alone, the client works through it from the top.
 */
module HttpDrain {
  import opened Messages
  import opened Surroundings
  import opened Sessions
  import opened HttpModel
  import opened HttpSteps
  import opened HttpRuns
  import opened Plans

  /** No callback ever answers with a message of its own. */
  ghost predicate Silent(w: World) {
    forall calls: seq<Call> :: w.reply(calls).Answered? ==> w.reply(calls).value.None?
  }

  lemma {:induction false} SilentPlan(w: World, status: AgentToServer, calls: seq<Call>, plan: seq<Action>)
    requires Silent(w) && ReportSelf !in plan
    ensures Produced(w, status, calls, plan) == []
    decreases |plan|
  {
    if plan != [] {
      SilentPlan(w, status, calls + CallOf(plan[0]), plan[1..]);
    }
  }

  ghost predicate LeavesSelf(plan: seq<Action>) {
    ReportSelf !in plan
  }

  lemma LeavesSelfConcat(first: seq<Action>, second: seq<Action>)
    requires LeavesSelf(first) && LeavesSelf(second)
    ensures LeavesSelf(first + second)
  {
  }

  /** Only a request for the full state of this very agent makes the plan report it. */
  lemma PlanLeavesSelf(w: World, msg: ServerToAgent)
    requires !AsksThisAgent(w, msg)
    ensures LeavesSelf(ServePlan(w, msg))
  {
    var stateAction := if msg.instanceUid == w.instanceId then ReportSelf else Ask(OnHealthCheck(msg));
    var command := If(msg.command.Some?, Ask(OnCommand(msg)));
    var error := If(msg.errorResponse.Some?, Mention(OnError(msg)));
    var state := If(AsksFullState(msg), stateAction);
    var config := If(msg.remoteConfig.Some?, Ask(OnAgentRemoteConfig(msg)));
    var packages := If(msg.packagesAvailable.Some?, Ask(OnPackagesAvailable(msg)));
    assert LeavesSelf(command) && LeavesSelf(error) && LeavesSelf(state) && LeavesSelf(config) && LeavesSelf(packages);
    assert LeavesSelf(OffersPlan(msg)) && LeavesSelf([Ask(OnLoop)]);
    hide LeavesSelf, If, OffersPlan;
    LeavesSelfConcat(OffersPlan(msg), packages);
    LeavesSelfConcat(config, OffersPlan(msg) + packages);
    LeavesSelfConcat(state, config + (OffersPlan(msg) + packages));
    LeavesSelfConcat(error, state + (config + (OffersPlan(msg) + packages)));
    LeavesSelfConcat(command, error + (state + (config + (OffersPlan(msg) + packages))));
    LeavesSelfConcat(Plan(w.instanceId, msg), [Ask(OnLoop)]);
  }

  lemma SilentService(w: World, c: Client)
    requires Coupled(c) && c.state.Polling? && KindOf(w, c) == Serves
    requires Silent(w) && !AsksThisAgent(w, c.inbox[|c.inbox| - 1])
    ensures HttpModel.Trigger(w, c).desk.outbox == []
  {
    hide Plan, CallsOf, Produced, ServePlan, ProcessTop, ReportHealth, Silent;
    PollAccount(w, c);
    var msg := c.inbox[|c.inbox| - 1];
    PlanLeavesSelf(w, msg);
    SilentPlan(w, c.desk.agentState.value, c.desk.calls, ServePlan(w, msg));
  }

  function Reversed<T>(s: seq<T>): (r: seq<T>)
    ensures |r| == |s| && forall i | 0 <= i < |s| :: r[i] == s[|s| - 1 - i]
  {
    if s == [] then [] else [s[|s| - 1]] + Reversed(s[..|s| - 1])
  }

  lemma ServesQuietly(w: World, c: Client, c': Client, move: Move)
    requires Coupled(c) && c.state.Polling? && KindOf(w, c) == Serves && Moves(w, c, c', move) && c'.desk.outbox == []
    ensures c'.state == c.state && c'.lastSent == c.lastSent && c'.desk.ticks == c.desk.ticks + 2
    ensures c'.desk.agentState == c.desk.agentState
    ensures c'.inbox == c.inbox[..|c.inbox| - 1]
    ensures c'.journal.processed == c.journal.processed + [c.inbox[|c.inbox| - 1]]
  {
  }

  lemma DrainsOne(w: World, n: nat)
    requires var c := Run(w, n);
      && c.state.Polling? && Healthy(c.desk) && c.inbox != [] && Silent(w)
      && !AsksThisAgent(w, c.inbox[|c.inbox| - 1])
      && w.clock(c.desk.ticks + 1) < c.lastSent + SERVER_POLL_DELAY
    ensures var c, c' := Run(w, n), Run(w, n + 1);
      && c'.state == c.state && c'.lastSent == c.lastSent && c'.desk.ticks == c.desk.ticks + 2
      && c'.desk.agentState == c.desk.agentState
      && c'.inbox == c.inbox[..|c.inbox| - 1]
      && c'.journal.processed == c.journal.processed + [c.inbox[|c.inbox| - 1]]
  {
    hide Run, HttpModel.Trigger, Polls, Silent;
    SilentService(w, Run(w, n));
    RunTriggers(w, n);
    var move := RunMoves(w, n);
    ServesQuietly(w, Run(w, n), Run(w, n + 1), move);
  }

  /** Polls take the inbox from the top: k of them drain k messages in the reverse of their arrival. */
  lemma {:induction false} DrainsInReverse(w: World, n: nat, k: nat)
    requires var c := Run(w, n);
      && c.state.Polling? && Healthy(c.desk) && k <= |c.inbox| && Silent(w)
      && (forall i | |c.inbox| - k <= i < |c.inbox| :: !AsksThisAgent(w, c.inbox[i]))
      && (forall j: nat | c.desk.ticks <= j < c.desk.ticks + 2 * k :: w.clock(j) < c.lastSent + SERVER_POLL_DELAY)
    ensures var c, c' := Run(w, n), Run(w, n + k);
      && c'.state == c.state
      && c'.inbox == c.inbox[..|c.inbox| - k]
      && c'.journal.processed == c.journal.processed + Reversed(c.inbox[|c.inbox| - k..])
      && c'.lastSent == c.lastSent && c'.desk.ticks == c.desk.ticks + 2 * k && c'.desk.agentState == c.desk.agentState
    decreases k
  {
    hide Run, Silent;
    var c := Run(w, n);
    if k == 0 {
      assert c.journal.processed + [] == c.journal.processed;
    } else {
      DrainsInReverse(w, n, k - 1);
      var before, rest := Run(w, n + k - 1), |c.inbox| - k;
      assert before.inbox[rest] == c.inbox[rest];
      DrainsOne(w, n + k - 1);
      ReversedSnoc(c.inbox, rest);
      assert before.inbox[..rest] == c.inbox[..rest];
    }
  }

  lemma ReversedSnoc<T>(s: seq<T>, k: nat)
    requires k < |s|
    ensures Reversed(s[k..]) == Reversed(s[k + 1..]) + [s[k]]
  {
  }
}
