/**
 How an HTTP run gets on: connecting, polling again and again, and backing off from a server that is not there.
 */
module HttpProgress {
  import opened Messages
  import opened Surroundings
  import opened Sessions
  import opened HttpModel
  import opened HttpRuns
  import opened HttpOpening

  /** The server is taken to be there if it answers HEAD with anything but 404. */
  predicate Present(head: HeadResult) {
    head.Status? && head.code != 404
  }

  // ---- Getting connected ----

  lemma DialFails(w: World, n: nat)
    requires Run(w, n).state.Connecting? && !Present(w.head(Run(w, n).heads))
    ensures Run(w, n + 1).state.Disconnected?
    ensures Run(w, n + 2).state.Connecting? && Run(w, n + 2).heads == Run(w, n).heads + 1
  {
    hide Run;
    var m1 := RunMoves(w, n);
    var m2 := RunMoves(w, n + 1);
  }

  lemma DialsFirst(w: World)
    ensures Run(w, 1).state.Connecting? && Run(w, 1).heads == 0
  {
    assert Run(w, 0) == Initial();
    hide Run;
    var m := RunMoves(w, 0);
  }

  /** Each HEAD that is not answered, or answered 404, costs two triggers. */
  lemma {:induction false} StillDialling(w: World, k: nat)
    requires forall i: nat | i < k :: !Present(w.head(i))
    ensures Run(w, 2 * k + 1).state.Connecting? && Run(w, 2 * k + 1).heads == k
  {
    hide Run;
    if k == 0 {
      DialsFirst(w);
    } else {
      StillDialling(w, k - 1);
      DialFails(w, 2 * k - 1);
    }
  }

  /** The first HEAD that finds the server present decides when the client is connected, to the trigger. */
  lemma ConnectsAt(w: World, k: nat)
    requires (forall i: nat | i < k :: !Present(w.head(i))) && Present(w.head(k))
    ensures Run(w, 2 * k + 2).state.Connected?
  {
    hide Run;
    StillDialling(w, k);
    var move := RunMoves(w, 2 * k + 1);
  }

  lemma StaysOpen(w: World, n: nat)
    requires !Opening(Run(w, n).state)
    ensures !Opening(Run(w, n + 1).state)
  {
    hide Run;
    var move := RunMoves(w, n);
  }

  /** Once past the handshake, the client never goes back to connecting, whatever fails. */
  lemma {:induction false} NeverReopens(w: World, m: nat, n: nat)
    requires m <= n && !Opening(Run(w, m).state)
    ensures !Opening(Run(w, n).state)
    decreases n - m
  {
    hide Run;
    if m < n {
      StaysOpen(w, m);
      NeverReopens(w, m + 1, n);
    }
  }

  /** Nothing is enqueued, asked, read or sent until some HEAD is answered other than 404. */
  lemma {:induction false} SilentUntilPresent(w: World, n: nat)
    requires forall i: nat :: !Present(w.head(i))
    ensures Pristine(Run(w, n)) && (Run(w, n).state.Disconnected? || Run(w, n).state.Connecting?)
  {
    hide HttpModel.Trigger;
    if n > 0 {
      SilentUntilPresent(w, n - 1);
      var move := RunMoves(w, n - 1);
    }
  }

  // ---- Getting to Polling, and back to it ----

  lemma SendEnds(w: World, n: nat)
    requires Run(w, n).state.Sending?
    ensures Run(w, n + 1).state.Polling? || (Run(w, n + 1).state.Waiting? && Run(w, n + 2).state.Polling?)
  {
    hide Run;
    var m1 := RunMoves(w, n);
    if Run(w, n + 1).state.Waiting? {
      var m2 := RunMoves(w, n + 1);
    }
  }

  /** From Polling the client is back in Polling within three triggers, whatever fails. */
  lemma PollsAgain(w: World, n: nat) returns (k: nat)
    requires Run(w, n).state.Polling?
    ensures 1 <= k <= 3 && Run(w, n + k).state.Polling?
  {
    hide Run;
    var move := RunMoves(w, n);
    if Run(w, n + 1).state.Polling? {
      k := 1;
    } else {
      SendEnds(w, n + 1);
      k := if Run(w, n + 2).state.Polling? then 2 else 3;
    }
  }

  lemma ConnectedPollsSoon(w: World, n: nat) returns (k: nat)
    requires Run(w, n).state.Connected?
    ensures 2 <= k <= 3 && Run(w, n + k).state.Polling?
  {
    hide Run;
    var move := RunMoves(w, n);
    SendEnds(w, n + 1);
    k := if Run(w, n + 2).state.Polling? then 2 else 3;
  }

  /** If a client yet to connect finds the server present at its next HEAD, Polling is at most five triggers away. */
  lemma PollsWithinFive(w: World, n: nat) returns (k: nat)
    requires var c := Run(w, n); c.state.Disconnected? || c.state.Connecting? ==> Present(w.head(c.heads))
    ensures k <= 5 && Run(w, n + k).state.Polling?
  {
    hide Run;
    match Run(w, n).state {
      case Disconnected(_) =>
        var m1 := RunMoves(w, n);
        var m2 := RunMoves(w, n + 1);
        k := ConnectedPollsSoon(w, n + 2);
        k := k + 2;
      case Connecting(_) =>
        var m1 := RunMoves(w, n);
        k := ConnectedPollsSoon(w, n + 1);
        k := k + 1;
      case Connected(_) => k := ConnectedPollsSoon(w, n);
      case Polling(_) => k := 0;
      case Sending(_) =>
        SendEnds(w, n);
        k := if Run(w, n + 1).state.Polling? then 1 else 2;
      case Waiting(_) =>
        var m1 := RunMoves(w, n);
        k := 1;
    }
  }

  /** The client ever polls exactly if some HEAD is answered other than 404. */
  lemma PollsIffPresent(w: World)
    ensures (exists n: nat :: Run(w, n).state.Polling?) <==> (exists i: nat :: Present(w.head(i)))
  {
    hide Run;
    if i: nat :| Present(w.head(i)) {
      var first := FirstPresent(w, i);
      ConnectsAt(w, first);
      var k := ConnectedPollsSoon(w, 2 * first + 2);
      assert Run(w, 2 * first + 2 + k).state.Polling?;
    } else {
      forall n: nat
        ensures !Run(w, n).state.Polling?
      {
        SilentUntilPresent(w, n);
      }
    }
  }

  lemma {:induction false} FirstPresent(w: World, i: nat) returns (first: nat)
    requires Present(w.head(i))
    ensures first <= i && Present(w.head(first)) && forall j: nat | j < first :: !Present(w.head(j))
  {
    first := 0;
    while !Present(w.head(first))
      invariant first <= i
      invariant forall j: nat | j < first :: !Present(w.head(j))
      decreases i - first
    {
      first := first + 1;
    }
  }

  // ---- Backing off ----

  /** How many of the first HEAD requests got no answer at all. */
  function Refusals(w: World, heads: nat): nat {
    if heads == 0 then 0 else Refusals(w, heads - 1) + (if w.head(heads - 1).Unreachable? then 1 else 0)
  }

  function Min(a: nat, b: nat): nat {
    if a <= b then a else b
  }

  /**
   The counter counts the refusals; the pauses are 2, 4, 8, ... seconds up to the retry limit, and every
   refusal after that is an error without a pause. Past 63 the power wraps around to no pause at all.
   */
  ghost predicate BackedOff(w: World, c: Client) {
    var k := Refusals(w, c.heads);
    && c.backoff == k
    && c.journal.slept == Pow2(Min(Min(k, w.retryLimit), 63) + 1) - 2
    && c.journal.giveUps == (if k > w.retryLimit then k - w.retryLimit else 0)
  }

  lemma {:induction false} Pow2Wraps(n: nat)
    requires n >= 64
    ensures Pow2(n) % U64 == 0
  {
    if n == 64 {
      Pow2Of63();
    } else {
      Pow2Wraps(n - 1);
      assert Pow2(n) == 2 * Pow2(n - 1);
    }
  }

  lemma Pow2Of63()
    ensures Pow2(63) == 0x8000_0000_0000_0000
  {
    assert Pow2(8) == 0x100;
    assert Pow2(16) == 0x1_0000;
    assert Pow2(24) == 0x100_0000;
    assert Pow2(32) == 0x1_0000_0000;
    assert Pow2(40) == 0x100_0000_0000;
    assert Pow2(48) == 0x1_0000_0000_0000;
    assert Pow2(56) == 0x100_0000_0000_0000;
  }

  lemma {:induction false} Pow2Grows(m: nat, n: nat)
    requires m <= n
    ensures 0 < Pow2(m) <= Pow2(n)
    decreases n
  {
    if m < n {
      Pow2Grows(m, n - 1);
    } else if m > 0 {
      Pow2Grows(m - 1, n - 1);
    }
  }

  /** The shift that computes a pause fits 64 bits exactly up to the 63rd failure. */
  lemma PauseFits(n: nat)
    ensures Pow2(n) < U64 <==> n <= 63
    ensures Pow2(n) % U64 == if n <= 63 then Pow2(n) else 0
  {
    Pow2Of63();
    if n <= 63 {
      Pow2Grows(n, 63);
    } else {
      Pow2Wraps(n);
      Pow2Grows(64, n);
    }
  }

  lemma OnlyDialsCount(w: World, c: Client, c': Client, move: Move)
    requires Coupled(c) && !c.state.Connecting? && Moves(w, c, c', move)
    ensures c'.heads == c.heads && c'.backoff == c.backoff
    ensures c'.journal.slept == c.journal.slept && c'.journal.giveUps == c.journal.giveUps
  {
  }

  lemma BackedOffStep(w: World, c: Client, c': Client, move: Move)
    requires Coupled(c) && BackedOff(w, c) && Moves(w, c, c', move)
    ensures BackedOff(w, c')
  {
    hide Polls, Sends, ReportStatus;
    if c.state.Connecting? {
      PauseFits(c.backoff + 1);
    } else {
      OnlyDialsCount(w, c, c', move);
    }
  }

  lemma {:induction false} BackoffArithmetic(w: World, n: nat)
    ensures BackedOff(w, Run(w, n))
  {
    hide HttpModel.Trigger;
    assert Pow2(1) == 2;
    if n > 0 {
      BackoffArithmetic(w, n - 1);
      var move := RunMoves(w, n - 1);
      BackedOffStep(w, Run(w, n - 1), Run(w, n), move);
    }
  }

  /** The pauses add up to 2^(m+1) - 2 seconds, m being the refusals within the limit, exactly if m is at most 63. */
  lemma TotalPause(w: World, n: nat)
    ensures var c := Run(w, n);
            var m := Min(Refusals(w, c.heads), w.retryLimit);
            c.journal.slept == Pow2(m + 1) - 2 <==> m <= 63
  {
    BackoffArithmetic(w, n);
    hide Run;
    var m := Min(Refusals(w, Run(w, n).heads), w.retryLimit);
    if m > 63 {
      Pow2Grows(64, m);
      assert Pow2(m + 1) == 2 * Pow2(m);
      Pow2Grows(0, 64);
    }
  }
}
