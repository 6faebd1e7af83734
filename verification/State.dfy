/**
 The client's state machine and what a whole run of it over any channel can look like.

 A channel is known to the machine only by how it answers: connect, handshake, poll, send and wait each
 return a response or an error. A run is therefore a sequence of outcomes, one a trigger, and every
 statement about all sequences of outcomes is a statement about all channels.
 */
module StateMachine {

  /** The six states; each carries a line for the log. */
  datatype State =
    | Disconnected(log: string)
    | Connecting(log: string)
    | Connected(log: string)
    | Polling(log: string)
    | Sending(log: string)
    | Waiting(log: string)

  datatype StateResponse = Reply(data: string) | Error(reason: string) | Nothing

  datatype Outcome = Ok(response: StateResponse) | Err(details: string)

  /** The channel operation a trigger calls; in Disconnected it calls none. */
  datatype Operation = Idle | Connect | Handshake | Poll | Send | Wait

  function Awaits(state: State): Operation {
    match state
    case Disconnected(_) => Idle
    case Connecting(_) => Connect
    case Connected(_) => Handshake
    case Polling(_) => Poll
    case Sending(_) => Send
    case Waiting(_) => Wait
  }

  /** The state after the awaited operation came out as given. */
  function Evaluate(state: State, outcome: Outcome): State {
    match state
    case Disconnected(_) => Connecting("")
    case Connecting(_) =>
      (match outcome
       case Ok(Reply(data)) => Connected(data)
       case Ok(Nothing) => Connected("")
       case Ok(Error(e)) => Disconnected(e)
       case Err(e) => Disconnected(e))
    case Connected(_) =>
      (match outcome
       case Ok(Reply(data)) => Sending(data)
       case Ok(Nothing) => Polling("")
       case Ok(Error(e)) => Disconnected(e)
       case Err(e) => Disconnected(e))
    case Polling(_) =>
      (match outcome
       case Ok(Reply(data)) => Sending(data)
       case Ok(Nothing) => state
       case Ok(Error(e)) => Disconnected(e)
       case Err(e) => Connecting(e))
    case Sending(_) =>
      (match outcome
       case Ok(Reply(data)) => Waiting(data)
       case Ok(Nothing) => Polling("")
       case Ok(Error(e)) => Polling(e)
       case Err(e) => Connecting(e))
    case Waiting(_) =>
      (match outcome
       case Ok(Reply(data)) => Polling(data)
       case Ok(Nothing) => state
       case Ok(Error(e)) => Polling(e)
       case Err(e) => Connecting(e))
  }

  // ---- Runs over an arbitrary channel ----

  /** The state reached from Disconnected after these outcomes. */
  function Drive(outcomes: seq<Outcome>): State {
    if outcomes == [] then Disconnected("")
    else
      var last := |outcomes| - 1;
      Evaluate(Drive(outcomes[..last]), outcomes[last])
  }

  /** One trigger: the operation it called and how that came out (for Idle the outcome is of no account). */
  datatype Exchange = Exchange(operation: Operation, outcome: Outcome)

  function Exchanges(outcomes: seq<Outcome>): (trace: seq<Exchange>)
    ensures |trace| == |outcomes|
  {
    if outcomes == [] then []
    else
      var last := |outcomes| - 1;
      Exchanges(outcomes[..last]) + [Exchange(Awaits(Drive(outcomes[..last])), outcomes[last])]
  }

  // ---- Histories, described without the machine ----

  predicate Accepted(exchange: Exchange, operation: Operation) {
    exchange.operation == operation && exchange.outcome.Ok? && !exchange.outcome.response.Error?
  }

  predicate Refused(exchange: Exchange, operation: Operation) {
    exchange.operation == operation && (exchange.outcome.Err? || exchange.outcome.response.Error?)
  }

  /** An exchange a session outlives: no poll error, and no error at all from poll, send or wait. */
  predicate Survives(exchange: Exchange) {
    && (exchange.operation.Poll? || exchange.operation.Send? || exchange.operation.Wait?)
    && exchange.outcome.Ok?
    && !(exchange.operation.Poll? && exchange.outcome.response.Error?)
  }

  /** An exchange that breaks a session off so that the client dials again at once. */
  predicate Breaks(exchange: Exchange) {
    && (exchange.operation.Poll? || exchange.operation.Send? || exchange.operation.Wait?)
    && exchange.outcome.Err?
  }

  /** A session opened at k by an accepted handshake, straight after an accepted connect, is still on. */
  ghost predicate OpenedAt(trace: seq<Exchange>, k: nat) {
    && 0 < k < |trace|
    && Accepted(trace[k - 1], Connect)
    && Accepted(trace[k], Handshake)
    && forall i | k < i < |trace| :: Survives(trace[i])
  }

  ghost predicate InSession(trace: seq<Exchange>) {
    exists k: nat :: OpenedAt(trace, k)
  }

  predicate LastAccepted(trace: seq<Exchange>, operation: Operation) {
    trace != [] && Accepted(trace[|trace| - 1], operation)
  }

  predicate LastReplied(trace: seq<Exchange>, operation: Operation) {
    LastAccepted(trace, operation) && trace[|trace| - 1].outcome.response.Reply?
  }

  predicate LastSilent(trace: seq<Exchange>, operation: Operation) {
    LastAccepted(trace, operation) && trace[|trace| - 1].outcome.response.Nothing?
  }

  /** The last trigger left nothing to build on: a refused connect or handshake, or an error a poll reported. */
  predicate LastLost(trace: seq<Exchange>) {
    trace == [] ||
    var last := trace[|trace| - 1];
    Refused(last, Connect) || Refused(last, Handshake) || (Refused(last, Poll) && last.outcome.Ok?)
  }

  lemma SessionStep(trace: seq<Exchange>, x: Exchange)
    ensures InSession(trace + [x]) <==>
            (InSession(trace) && Survives(x)) || (LastAccepted(trace, Connect) && Accepted(x, Handshake))
  {
    var longer := trace + [x];
    if InSession(trace) && Survives(x) {
      var k: nat :| OpenedAt(trace, k);
      assert OpenedAt(longer, k);
    }
    if LastAccepted(trace, Connect) && Accepted(x, Handshake) {
      assert OpenedAt(longer, |trace|);
    }
    if InSession(longer) {
      var k: nat :| OpenedAt(longer, k);
      if k < |trace| {
        forall i | k < i < |trace|
          ensures Survives(trace[i])
        {
          assert Survives(longer[i]);
        }
        assert OpenedAt(trace, k);
        assert Survives(longer[|trace|]);
      }
    }
  }

  /** Each state stands for exactly the histories described here; between them they cover every run. */
  ghost predicate Describes(state: State, trace: seq<Exchange>) {
    match state
    case Disconnected(_) => LastLost(trace)
    case Connecting(_) => trace != [] && (trace[|trace| - 1].operation.Idle? || Breaks(trace[|trace| - 1]))
    case Connected(_) => LastAccepted(trace, Connect)
    case Polling(_) =>
      && InSession(trace)
      && !LastReplied(trace, Handshake) && !LastReplied(trace, Poll)
      && !LastReplied(trace, Send) && !LastSilent(trace, Wait)
    case Sending(_) => InSession(trace) && (LastReplied(trace, Handshake) || LastReplied(trace, Poll))
    case Waiting(_) => InSession(trace) && (LastReplied(trace, Send) || LastSilent(trace, Wait))
  }

  lemma SessionEndsWell(trace: seq<Exchange>)
    requires InSession(trace)
    ensures trace != []
    ensures var last := trace[|trace| - 1]; Accepted(last, Handshake) || Survives(last)
  {
  }

  lemma {:induction false} StateTellsHistory(outcomes: seq<Outcome>)
    ensures Describes(Drive(outcomes), Exchanges(outcomes))
  {
    if outcomes != [] {
      var last := |outcomes| - 1;
      StateTellsHistory(outcomes[..last]);
      SessionStep(Exchanges(outcomes[..last]), Exchange(Awaits(Drive(outcomes[..last])), outcomes[last]));
    }
  }

  /** No history is described by two states, so the description above is exact in both directions. */
  lemma HistoryTellsState(state: State, other: State, trace: seq<Exchange>)
    requires Describes(state, trace) && Describes(other, trace)
    ensures Awaits(state) == Awaits(other)
  {
    if InSession(trace) {
      SessionEndsWell(trace);
    }
  }

  /**
   The order in which any channel is called. Poll, send and wait happen only inside a session; a handshake
   only straight after an accepted connect; send only on a reply to a handshake or a poll; wait only on a
   reply to a send, or again after a silent wait; and a new connect only once nothing of the old is left.
   */
  lemma CallsAreOrdered(outcomes: seq<Outcome>, i: nat)
    requires i < |outcomes|
    ensures var before := Exchanges(outcomes)[..i];
            match Exchanges(outcomes)[i].operation
            case Idle => LastLost(before)
            case Connect => !InSession(before) && !LastAccepted(before, Connect)
            case Handshake => LastAccepted(before, Connect)
            case Poll => InSession(before)
            case Send => InSession(before) && (LastReplied(before, Handshake) || LastReplied(before, Poll))
            case Wait => InSession(before) && (LastReplied(before, Send) || LastSilent(before, Wait))
  {
    PrefixOfRun(outcomes, i);
    StateTellsHistory(outcomes[..i]);
    if InSession(Exchanges(outcomes[..i])) {
      SessionEndsWell(Exchanges(outcomes[..i]));
    }
  }

  lemma {:induction false} PrefixOfRun(outcomes: seq<Outcome>, i: nat)
    requires i < |outcomes|
    ensures Exchanges(outcomes)[..i] == Exchanges(outcomes[..i])
    ensures Exchanges(outcomes)[i] == Exchange(Awaits(Drive(outcomes[..i])), outcomes[i])
  {
    var last := |outcomes| - 1;
    if i < last {
      PrefixOfRun(outcomes[..last], i);
      assert outcomes[..last][..i] == outcomes[..i];
    }
  }

  // ---- The line a state carries, told from the history ----

  /** What an outcome says of itself. */
  function Words(outcome: Outcome): string {
    match outcome
    case Ok(Reply(data)) => data
    case Ok(Error(reason)) => reason
    case Ok(Nothing) => ""
    case Err(details) => details
  }

  /** The words of the last trigger of a history that was not a silent poll or wait; none if that one called nothing. */
  function LastWords(trace: seq<Exchange>): string {
    if trace == [] then ""
    else
      var last := trace[|trace| - 1];
      if last.operation.Idle? then ""
      else if (last.operation.Poll? || last.operation.Wait?) && last.outcome == Ok(Nothing) then
        LastWords(trace[..|trace| - 1])
      else Words(last.outcome)
  }

  lemma {:induction false} LogTellsHistory(outcomes: seq<Outcome>)
    ensures Drive(outcomes).log == LastWords(Exchanges(outcomes))
  {
    if outcomes != [] {
      var last := |outcomes| - 1;
      LogTellsHistory(outcomes[..last]);
      var trace := Exchanges(outcomes);
      assert trace[..|trace| - 1] == Exchanges(outcomes[..last]);
    }
  }
}
