/**
 The HTTP client: each method updates the client's fields in place as the source does, and is proved to do
 what HttpModel says of it.
 */
module HttpTransport {
  import opened Wrappers
  import opened Messages
  import opened Surroundings
  import opened Sessions
  import opened StateMachine
  import opened HttpModel

  class HttpClient {
    const env: Environment
    var backoff: nat
    var seqno: nat
    var lastSent: nat
    var agentState: Option<AgentToServer>
    var inbox: seq<ServerToAgent>
    var outbox: seq<Queued>
    var state: State

    ghost var enqueued: seq<Queued>
    ghost var journal: Journal

    ghost function DeskView(): Desk
      reads this, env
    {
      Desk(agentState, outbox, enqueued, env.calls, env.ticks)
    }

    ghost function View(): Client
      reads this, env
    {
      Client(DeskView(), backoff, seqno, lastSent, inbox, state, env.heads, env.posts, journal)
    }

    constructor (env: Environment)
      requires env.ticks == env.heads == env.posts == env.frames == 0 && env.calls == []
      ensures this.env == env && View() == Initial()
    {
      this.env := env;
      backoff, seqno, lastSent := 0, 0, 0;
      agentState := None;
      inbox, outbox := [], [];
      state := Disconnected("");
      enqueued, journal := [], Journal(0, 0, [], [], [], []);
    }

    method Enqueue(origin: Origin, msg: AgentToServer)
      modifies this`outbox, this`enqueued
      ensures DeskView() == Push(old(DeskView()), origin, msg)
    {
      outbox := outbox + [Queued(origin, msg)];
      enqueued := enqueued + [Queued(origin, msg)];
    }

    method AskCallback(call: Call)
      modifies this`outbox, this`enqueued, env`calls
      ensures DeskView() == Consult(env.world, old(DeskView()), call)
    {
      env.Tell(call);
      match env.world.reply(env.calls) {
        case Answered(Some(reply)) => Enqueue(CallbackReply, reply);
        case Answered(None) =>
        case Refused(_) =>
      }
    }

    method GetStatus() returns (status: AgentToServer)
      modifies this`agentState, env`calls, env`ticks
      ensures DeskView() == Populate(env.world, old(DeskView()))
      ensures Some(status) == agentState
      ensures old(agentState).None? ==>
        var (capabilities, flags) := env.world.features(old(env.calls) + [GetConfiguration] + [GetFeatures]);
        var config := env.world.configuration(old(env.calls) + [GetConfiguration]);
        status == AgentToServer(env.world.instanceId, 0, capabilities, flags, Some(env.world.description),
          Some(AgentHealth(false, env.world.clock(old(env.ticks)) % 0x1_0000_0000_0000_0000, "")),
          Some(if config.Answered? then config.value else None), Some(""), Some(""), None)
    {
      if agentState.None? {
        env.Tell(GetConfiguration);
        var configMap;
        match env.world.configuration(env.calls) {
          case Answered(reply) => configMap := reply;
          case Refused(_) => configMap := None;
        }
        env.Tell(GetFeatures);
        var (capabilities, flags) := env.world.features(env.calls);
        var startTime := env.Now();
        agentState := Some(AgentToServer(env.world.instanceId, 0, capabilities, flags,
          Some(env.world.description), Some(AgentHealth(false, startTime % U64, "")), Some(configMap),
          Some(""), Some(""), None));
      }
      status := agentState.value;
    }

    method SetHealth(healthy: bool)
      modifies this`agentState, env`calls, env`ticks
      ensures DeskView() == Sessions.SetHealth(env.world, old(DeskView()), healthy)
      ensures old(agentState).Some? && old(agentState).value.health.Some? ==>
        var status := old(agentState).value;
        agentState == Some(status.(health := Some(status.health.value.(healthy := healthy))))
    {
      var status := GetStatus();
      if status.health.Some? {
        status := status.(health := Some(status.health.value.(healthy := healthy)));
      }
      agentState := Some(status);
    }

    method GetHealth() returns (health: AgentHealth)
      requires HealthKnown(DeskView())
      modifies env`ticks
      ensures DeskView() == old(DeskView()).(ticks := old(env.ticks) + 1)
      ensures health == CurrentHealth(env.world, old(DeskView()))
    {
      var now := env.Now();
      health := agentState.value.health.value.(startTime := now % U64);
    }

    method Connect() returns (outcome: Outcome)
      modifies this`backoff, this`journal, env`heads
      ensures (View(), outcome) == HttpModel.Connect(env.world, old(View()))
    {
      var head := env.Head();
      match head {
        case Status(code) =>
          if code != 404 {
            return Ok(Reply("remote server present"));
          }
          return Ok(Error("404 Not Found"));
        case Unreachable(e) =>
          backoff := backoff + 1;
          if backoff > env.world.retryLimit {
            journal := journal.(giveUps := journal.giveUps + 1);
            return Err("Failed to connect to endpoint: " + e);
          }
          journal := journal.(slept := journal.slept + Pow2(backoff) % U64);
          return Ok(Error("endpoint not responding: retrying .."));
      }
    }

    method Handshake() returns (outcome: Outcome)
      modifies this`agentState, this`outbox, this`enqueued, env`calls, env`ticks
      ensures (View(), outcome) == HttpModel.Handshake(env.world, old(View()))
    {
      var status := GetStatus();
      Enqueue(FullStateHandshake, status);
      outcome := Ok(Reply("Handshake enqueued"));
    }

    method ReportFullState(msg: ServerToAgent)
      modifies this`agentState, this`outbox, this`enqueued, env`calls, env`ticks
      ensures DeskView() == HttpModel.ReportFullState(env.world, old(DeskView()), msg)
      ensures msg.flags % 2 == 0 ==> DeskView() == old(DeskView())
      ensures msg.flags % 2 == 1 && msg.instanceUid == env.world.instanceId ==>
        agentState.Some? && outbox == old(outbox) + [Queued(FullStateReport, agentState.value)]
    {
      if AsksFullState(msg) {
        if msg.instanceUid == env.world.instanceId {
          var status := GetStatus();
          Enqueue(FullStateReport, status);
        } else {
          AskCallback(OnHealthCheck(msg));
        }
      }
    }

    method OfferConnections(msg: ServerToAgent)
      modifies this`outbox, this`enqueued, env`calls
      ensures DeskView() == HttpModel.OfferConnections(env.world, old(DeskView()), msg)
    {
      if msg.connectionSettings.Some? {
        var offers := msg.connectionSettings.value;
        if offers.ownMetrics.Some? {
          AskCallback(OnConnectionSettingsOffers(msg));
        }
        if offers.ownTraces.Some? {
          AskCallback(OnConnectionSettingsOffers(msg));
        }
        if offers.ownLogs.Some? {
          AskCallback(OnConnectionSettingsOffers(msg));
        }
      }
    }

    method Dispatch(msg: ServerToAgent)
      modifies this`agentState, this`outbox, this`enqueued, env`calls, env`ticks
      ensures DeskView() == HttpModel.Dispatch(env.world, old(DeskView()), msg)
    {
      ghost var w, desk := env.world, DeskView();
      if msg.command.Some? {
        AskCallback(OnCommand(msg));
      }
      ghost var commanded := ConsultIf(w, desk, msg.command.Some?, OnCommand(msg));
      assert DeskView() == commanded;
      if msg.errorResponse.Some? {
        env.Tell(OnError(msg));
      }
      ghost var relayed := if msg.errorResponse.Some? then Tell(commanded, OnError(msg)) else commanded;
      assert DeskView() == relayed;
      ReportFullState(msg);
      ghost var reported := DeskView();
      if msg.remoteConfig.Some? {
        AskCallback(OnAgentRemoteConfig(msg));
      }
      assert DeskView() == ConsultIf(w, reported, msg.remoteConfig.Some?, OnAgentRemoteConfig(msg));
      OfferConnections(msg);
      ghost var offered := DeskView();
      if msg.packagesAvailable.Some? {
        AskCallback(OnPackagesAvailable(msg));
      }
      assert DeskView() == ConsultIf(w, offered, msg.packagesAvailable.Some?, OnPackagesAvailable(msg));
    }

    method ReportHealth()
      requires HealthKnown(DeskView())
      modifies this`agentState, this`outbox, this`enqueued, env`calls, env`ticks
      ensures DeskView() == Sessions.ReportHealth(env.world, old(DeskView()))
      ensures var health := old(agentState).value.health.value;
        if health.healthy then outbox == old(outbox)
        else
          outbox == old(outbox) + [Queued(HealthReport, AgentToServer(env.world.instanceId, 0, 0, 0, None,
            Some(AgentHealth(true, env.world.clock(old(env.ticks)) % 0x1_0000_0000_0000_0000, health.lastError)),
            None, None, None, None))]
    {
      var health := GetHealth();
      if !health.healthy {
        SetHealth(true);
        Enqueue(HealthReport,
          DEFAULT_MESSAGE.(instanceUid := env.world.instanceId, health := Some(health.(healthy := true))));
      }
    }

    method ProcessTop() returns (outcome: Outcome)
      requires inbox != []
      modifies this`agentState, this`outbox, this`enqueued, this`inbox, this`journal, env`calls, env`ticks
      ensures (View(), outcome) == HttpModel.ProcessTop(env.world, old(View()))
    {
      var top := |inbox| - 1;
      var msg := inbox[top];
      inbox := inbox[..top];
      journal := journal.(processed := journal.processed + [msg]);
      Dispatch(msg);
      AskCallback(OnLoop);
      if outbox == [] {
        outcome := Ok(Nothing);
      } else {
        outcome := Ok(Reply("messages pending"));
      }
    }

    method Attend() returns (outcome: Outcome)
      modifies this`agentState, this`outbox, this`enqueued, this`inbox, this`journal, env`calls, env`ticks
      ensures (View(), outcome) == HttpModel.Attend(env.world, old(View()))
      ensures env.world.clock(old(env.ticks)) >= lastSent + 30_000_000_000 ==>
        outbox == old(outbox) +
          [Queued(Heartbeat, AgentToServer(env.world.instanceId, 0, 0, 0, None, None, None, None, None, None))]
    {
      var now := env.Now();
      if now >= lastSent + SERVER_POLL_DELAY {
        Enqueue(Heartbeat, DEFAULT_MESSAGE.(instanceUid := env.world.instanceId));
        return Ok(Reply("server poll"));
      }
      if inbox == [] {
        return Ok(Nothing);
      }
      outcome := ProcessTop();
    }

    method Poll() returns (outcome: Outcome)
      requires HealthKnown(DeskView())
      modifies this`agentState, this`outbox, this`enqueued, this`inbox, this`journal, env`calls, env`ticks
      ensures (View(), outcome) == HttpModel.Poll(env.world, old(View()))
      ensures var health := old(agentState).value.health.value;
        !health.healthy ==>
          outbox == old(outbox) + [Queued(HealthReport, AgentToServer(env.world.instanceId, 0, 0, 0, None,
            Some(AgentHealth(true, env.world.clock(old(env.ticks)) % 0x1_0000_0000_0000_0000, health.lastError)),
            None, None, None, None))]
    {
      ReportHealth();
      if outbox != [] {
        return Ok(Reply("flushing queue"));
      }
      outcome := Attend();
    }

    method SendAndReceive(item: Queued) returns (result: PostResult)
      modifies this`seqno, this`lastSent, this`journal, env`ticks, env`posts
      ensures View() == HttpModel.SendAndReceive(env.world, old(View()), item)
      ensures result == NextAttempt(env.world, old(View()), item).result
    {
      seqno := seqno + 1;
      var message := item.msg.(sequenceNum := seqno);
      lastSent := env.Now();
      if agentState.Some? {
        message := message.(capabilities := agentState.value.capabilities, flags := agentState.value.flags);
      }
      result := env.Post();
      journal := journal.(wire := journal.wire + [Attempt(item, message, lastSent, result)]);
    }

    method Send() returns (outcome: Outcome)
      modifies this`outbox, this`inbox, this`seqno, this`lastSent, this`journal,
        env`ticks, env`posts
      ensures View() == HttpModel.Send(env.world, old(View())).0
      ensures outcome == HttpModel.Send(env.world, old(View())).1
    {
      var pending := outbox;
      outbox := [];
      ghost var w, start := env.world, View();
      ghost var whole := Flush(w, start, pending);
      assert start == old(View()).(desk := old(DeskView()).(outbox := []));
      ghost var sent: seq<Attempt> := [];
      assert pending[0..] == pending && [] + whole.sent == whole.sent;
      var i := 0;
      while i < |pending|
        invariant 0 <= i <= |pending|
        invariant outbox == [] && journal.batches == start.journal.batches
        invariant whole == Resume(w, sent, View(), pending[i..])
      {
        ghost var before := View();
        ResumeStep(w, sent, before, pending, i);
        sent := sent + [NextAttempt(w, before, pending[i])];
        var result := SendAndReceive(pending[i]);
        match result {
          case Delivered(message) =>
            inbox := inbox + [message];
            journal := journal.(received := journal.received + [message]);
            assert View() == Deliver(HttpModel.SendAndReceive(w, before, pending[i]), message);
          case Failed(e) =>
            assert whole == Flushed(View(), sent, Some(e), pending[i + 1..]);
            journal := journal.(batches := journal.batches + [Batch(sent, pending[i + 1..])]);
            return Ok(Error(e));
        }
        i := i + 1;
      }
      assert whole == Flushed(View(), sent, None, []) by {
        assert pending[i..] == [] && sent + [] == sent;
      }
      journal := journal.(batches := journal.batches + [Batch(sent, [])]);
      outcome := Ok(Reply("sent"));
    }

    method Trigger()
      requires Coupled(View())
      modifies this, env
      ensures View() == HttpModel.Trigger(env.world, old(View()))
    {
      var outcome := Ok(Nothing);
      match Awaits(state) {
        case Idle =>
        case Connect => outcome := Connect();
        case Handshake => outcome := Handshake();
        case Poll => outcome := Poll();
        case Send => outcome := Send();
        case Wait => outcome := Ok(Reply(""));
      }
      state := Evaluate(state, outcome);
    }
  }
}
