/**
 The websocket client, updating its fields in place as the source does, proved against WsModel.
 */
module WsTransport {
  import opened Wrappers
  import opened Messages
  import opened Surroundings
  import opened Sessions
  import opened StateMachine
  import opened WsModel

  class WsClient {
    const env: Environment
    var seqno: nat
    var agentState: Option<AgentToServer>
    var outbox: seq<Queued>
    var state: State

    ghost var enqueued: seq<Queued>
    ghost var wire: seq<Sent>

    ghost function DeskView(): Desk
      reads this, env
    {
      Desk(agentState, outbox, enqueued, env.calls, env.ticks)
    }

    ghost function View(): Socket
      reads this, env
    {
      Socket(DeskView(), seqno, state, env.frames, wire)
    }

    constructor (env: Environment)
      requires env.ticks == env.heads == env.posts == env.frames == 0 && env.calls == []
      ensures this.env == env && View() == Initial()
    {
      this.env := env;
      seqno, agentState, outbox := 0, None, [];
      state := Disconnected("");
      enqueued, wire := [], [];
    }

    method Enqueue(origin: Origin, msg: AgentToServer)
      modifies this`outbox, this`enqueued
      ensures DeskView() == Push(old(DeskView()), origin, msg)
    {
      outbox := outbox + [Queued(origin, msg)];
      enqueued := enqueued + [Queued(origin, msg)];
    }

    method AskCallback(call: Call)
      modifies this`outbox, this`enqueued, env`calls
      ensures DeskView() == Consult(env.world, old(DeskView()), call)
    {
      env.Tell(call);
      match env.world.reply(env.calls) {
        case Answered(Some(reply)) => Enqueue(CallbackReply, reply);
        case Answered(None) =>
        case Refused(_) =>
      }
    }

    method GetStatus() returns (status: AgentToServer)
      modifies this`agentState, env`calls, env`ticks
      ensures DeskView() == Populate(env.world, old(DeskView()))
      ensures Some(status) == agentState
      ensures old(agentState).None? ==>
        var (capabilities, flags) := env.world.features(old(env.calls) + [GetConfiguration] + [GetFeatures]);
        var config := env.world.configuration(old(env.calls) + [GetConfiguration]);
        status == AgentToServer(env.world.instanceId, 0, capabilities, flags, Some(env.world.description),
          Some(AgentHealth(false, env.world.clock(old(env.ticks)) % 0x1_0000_0000_0000_0000, "")),
          Some(if config.Answered? then config.value else None), Some(""), Some(""), None)
    {
      if agentState.None? {
        env.Tell(GetConfiguration);
        var configMap;
        match env.world.configuration(env.calls) {
          case Answered(reply) => configMap := reply;
          case Refused(_) => configMap := None;
        }
        env.Tell(GetFeatures);
        var (capabilities, flags) := env.world.features(env.calls);
        var startTime := env.Now();
        agentState := Some(AgentToServer(env.world.instanceId, 0, capabilities, flags,
          Some(env.world.description), Some(AgentHealth(false, startTime % U64, "")), Some(configMap),
          Some(""), Some(""), None));
      }
      status := agentState.value;
    }

    method SetHealth(healthy: bool)
      modifies this`agentState, env`calls, env`ticks
      ensures DeskView() == Sessions.SetHealth(env.world, old(DeskView()), healthy)
      ensures old(agentState).Some? && old(agentState).value.health.Some? ==>
        var status := old(agentState).value;
        agentState == Some(status.(health := Some(status.health.value.(healthy := healthy))))
    {
      var status := GetStatus();
      if status.health.Some? {
        status := status.(health := Some(status.health.value.(healthy := healthy)));
      }
      agentState := Some(status);
    }

    method GetHealth() returns (health: AgentHealth)
      requires HealthKnown(DeskView())
      modifies env`ticks
      ensures DeskView() == old(DeskView()).(ticks := old(env.ticks) + 1)
      ensures health == CurrentHealth(env.world, old(DeskView()))
    {
      var now := env.Now();
      health := agentState.value.health.value.(startTime := now % U64);
    }

    method Connect() returns (outcome: Outcome)
      modifies this`agentState, env`calls, env`ticks
      ensures (View(), outcome) == WsModel.Connect(env.world, old(View()))
    {
      SetHealth(false);
      outcome := Ok(Reply("connected"));
    }

    method Handshake() returns (outcome: Outcome)
      modifies this`agentState, this`outbox, this`enqueued, env`calls, env`ticks
      ensures (View(), outcome) == WsModel.Handshake(env.world, old(View()))
    {
      SetHealth(false);
      var status := GetStatus();
      Enqueue(FullStateHandshake, status);
      outcome := Ok(Reply("handshake enqueued"));
    }

    method ReportFullState(msg: ServerToAgent)
      modifies this`agentState, this`outbox, this`enqueued, env`calls, env`ticks
      ensures DeskView() == WsModel.ReportFullState(env.world, old(DeskView()), msg)
      ensures msg.flags % 2 == 0 ==> DeskView() == old(DeskView())
      ensures msg.flags % 2 == 1 && msg.instanceUid == env.world.instanceId ==>
        agentState.Some? && outbox == old(outbox) + [Queued(FullStateReport, agentState.value)]
    {
      if AsksFullState(msg) {
        if msg.instanceUid == env.world.instanceId {
          SetHealth(true);
          var status := GetStatus();
          Enqueue(FullStateReport, status);
        } else {
          AskCallback(OnHealthCheck(msg));
        }
      }
    }

    method OfferConnections(msg: ServerToAgent)
      modifies this`outbox, this`enqueued, env`calls
      ensures DeskView() == WsModel.OfferConnections(env.world, old(DeskView()), msg)
    {
      if msg.connectionSettings.Some? {
        var offers := msg.connectionSettings.value;
        if offers.ownMetrics.Some? {
          AskCallback(OnConnectionSettingsOffers(msg));
        }
        if offers.ownTraces.Some? {
          AskCallback(OnConnectionSettingsOffers(msg));
        }
        if offers.ownLogs.Some? {
          AskCallback(OnConnectionSettingsOffers(msg));
        }
      }
    }

    method Dispatch(msg: ServerToAgent)
      modifies this`agentState, this`outbox, this`enqueued, env`calls, env`ticks
      ensures DeskView() == WsModel.Dispatch(env.world, old(DeskView()), msg)
    {
      ghost var w, desk := env.world, DeskView();
      if msg.command.Some? {
        AskCallback(OnCommand(msg));
      }
      assert DeskView() == Command(w, desk, msg);
      if msg.errorResponse.Some? {
        env.Tell(OnError(msg));
      }
      assert DeskView() == RelayError(Command(w, desk, msg), msg);
      ReportFullState(msg);
      ghost var reported := DeskView();
      if msg.remoteConfig.Some? {
        AskCallback(OnAgentRemoteConfig(msg));
      }
      assert DeskView() == RemoteConfig(w, reported, msg);
      OfferConnections(msg);
      ghost var offered := DeskView();
      if msg.packagesAvailable.Some? {
        AskCallback(OnPackagesAvailable(msg));
      }
      assert DeskView() == Packages(w, offered, msg);
    }

    method ReportHealth()
      requires HealthKnown(DeskView())
      modifies this`agentState, this`outbox, this`enqueued, env`calls, env`ticks
      ensures DeskView() == Sessions.ReportHealth(env.world, old(DeskView()))
      ensures var health := old(agentState).value.health.value;
        if health.healthy then outbox == old(outbox)
        else
          outbox == old(outbox) + [Queued(HealthReport, AgentToServer(env.world.instanceId, 0, 0, 0, None,
            Some(AgentHealth(true, env.world.clock(old(env.ticks)) % 0x1_0000_0000_0000_0000, health.lastError)),
            None, None, None, None))]
    {
      var health := GetHealth();
      if !health.healthy {
        SetHealth(true);
        Enqueue(HealthReport,
          DEFAULT_MESSAGE.(instanceUid := env.world.instanceId, health := Some(health.(healthy := true))));
      }
    }

    method ServeFrame() returns (outcome: Outcome)
      modifies this`agentState, this`outbox, this`enqueued, env`calls, env`ticks, env`frames
      ensures (View(), outcome) == WsModel.ServeFrame(env.world, old(View()))
    {
      var frame := env.Receive();
      match frame {
        case Inbound(msg) => Dispatch(msg);
        case Unusable =>
      }
      AskCallback(OnLoop);
      if outbox == [] {
        outcome := Ok(Nothing);
      } else {
        outcome := Ok(Reply("messages pending"));
      }
    }

    method Poll() returns (outcome: Outcome)
      requires HealthKnown(DeskView())
      modifies this`agentState, this`outbox, this`enqueued, env`calls, env`ticks, env`frames
      ensures (View(), outcome) == WsModel.Poll(env.world, old(View()))
      ensures var health := old(agentState).value.health.value;
        !health.healthy ==>
          outbox == old(outbox) + [Queued(HealthReport, AgentToServer(env.world.instanceId, 0, 0, 0, None,
            Some(AgentHealth(true, env.world.clock(old(env.ticks)) % 0x1_0000_0000_0000_0000, health.lastError)),
            None, None, None, None))]
    {
      ReportHealth();
      if outbox != [] {
        return Ok(Reply("flushing queue"));
      }
      outcome := ServeFrame();
    }

    method Flush()
      modifies this`outbox, this`seqno, this`wire
      ensures View() == WsModel.Send(old(View())).0
    {
      ghost var start := View();
      var pending := outbox;
      outbox := [];
      var capabilities, flags := 0, 0;
      if agentState.Some? {
        capabilities, flags := agentState.value.capabilities, agentState.value.flags;
      }
      var i := 0;
      while i < |pending|
        invariant 0 <= i <= |pending|
        invariant outbox == [] && seqno == start.seqno + i
        invariant wire == start.wire + Stamps(start)[..i]
      {
        var message := pending[i].msg.(capabilities := capabilities, flags := flags);
        seqno := seqno + 1;
        message := message.(sequenceNum := seqno);
        wire := wire + [Sent(pending[i], message)];
        i := i + 1;
      }
    }

    method Send() returns (outcome: Outcome)
      modifies this`outbox, this`seqno, this`wire
      ensures (View(), outcome) == WsModel.Send(old(View()))
    {
      Flush();
      outcome := Ok(Reply("messages sent"));
    }

    method Trigger()
      requires Coupled(View())
      modifies this, env
      ensures View() == WsModel.Trigger(env.world, old(View()))
    {
      var outcome := Ok(Nothing);
      match Awaits(state) {
        case Idle =>
        case Connect => outcome := Connect();
        case Handshake => outcome := Handshake();
        case Poll => outcome := Poll();
        case Send => outcome := Send();
        case Wait => outcome := Ok(Reply(""));
      }
      state := Evaluate(state, outcome);
    }
  }
}
