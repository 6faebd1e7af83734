/**
 The books of an HTTP run: every message enqueued, tried, dropped, received and processed is accounted for.
 */
module HttpLedger {
  import opened Messages
  import opened Surroundings
  import opened Sessions
  import opened HttpModel
  import opened HttpSteps
  import opened HttpRuns

  // ---- The books: what was enqueued, tried, dropped, received and processed ----

  /** What a batch took off the outbox, in order. */
  function Taken(batch: Batch): seq<Queued> {
    Queueds(batch.sent) + batch.dropped
  }

  /** All that batches took off the outbox, in order. */
  function AllTaken(batches: seq<Batch>): seq<Queued> {
    if batches == [] then []
    else
      var last := |batches| - 1;
      AllTaken(batches[..last]) + Taken(batches[last])
  }

  /** All attempts batches made, in order. */
  function AllSent(batches: seq<Batch>): seq<Attempt> {
    if batches == [] then []
    else
      var last := |batches| - 1;
      AllSent(batches[..last]) + batches[last].sent
  }

  ghost predicate Numbered(w: World, wire: seq<Attempt>) {
    forall i | 0 <= i < |wire| :: wire[i].wire.sequenceNum == i + 1 && wire[i].result == w.post(i)
  }

  /** What was enqueued is what the batches took followed by what is still queued. */
  ghost predicate Conserved(c: Client) {
    && c.desk.enqueued == AllTaken(c.journal.batches) + c.desk.outbox
    && c.journal.wire == AllSent(c.journal.batches)
    && forall i | 0 <= i < |c.journal.batches| :: Shaped(c.journal.batches[i])
  }

  /** What was received is the replies on the wire, and each is either processed or in the inbox. */
  ghost predicate Stacked(c: Client) {
    && c.journal.received == Replies(c.journal.wire)
    && multiset(c.journal.received) == multiset(c.journal.processed) + multiset(c.inbox)
  }

  /** Attempt i carries number i + 1, whatever came of the attempts before it. */
  ghost predicate Contiguous(w: World, c: Client) {
    && |c.journal.wire| == c.seqno == c.posts
    && Numbered(w, c.journal.wire)
  }

  ghost predicate Books(w: World, c: Client) {
    Conserved(c) && Stacked(c) && Contiguous(w, c)
  }

  lemma ConservedEnqueue(c: Client, c': Client, added: seq<Queued>)
    requires Conserved(c)
    requires c'.desk.enqueued == c.desk.enqueued + added && c'.desk.outbox == c.desk.outbox + added
    requires c'.journal.batches == c.journal.batches && c'.journal.wire == c.journal.wire
    ensures Conserved(c')
  {
    var taken := AllTaken(c.journal.batches);
    assert (taken + c.desk.outbox) + added == taken + (c.desk.outbox + added);
  }

  lemma BatchAdds(batches: seq<Batch>, batch: Batch)
    ensures AllTaken(batches + [batch]) == AllTaken(batches) + Taken(batch)
    ensures AllSent(batches + [batch]) == AllSent(batches) + batch.sent
  {
    hide Taken;
    assert (batches + [batch])[..|batches|] == batches;
  }

  lemma ConservedSend(c: Client, c': Client, batch: Batch)
    requires Conserved(c)
    requires Shaped(batch) && Taken(batch) == c.desk.outbox
    requires c'.desk.enqueued == c.desk.enqueued && c'.desk.outbox == []
    requires c'.journal.batches == c.journal.batches + [batch] && c'.journal.wire == c.journal.wire + batch.sent
    ensures Conserved(c')
  {
    hide AllTaken, AllSent, Taken, Shaped;
    BatchAdds(c.journal.batches, batch);
    assert AllTaken(c'.journal.batches) + [] == AllTaken(c'.journal.batches);
  }

  lemma StackedServe(c: Client, c': Client)
    requires Stacked(c) && c.inbox != []
    requires c'.inbox == c.inbox[..|c.inbox| - 1] && c'.journal.wire == c.journal.wire
    requires c'.journal.received == c.journal.received
    requires c'.journal.processed == c.journal.processed + [c.inbox[|c.inbox| - 1]]
    ensures Stacked(c')
  {
    assert c.inbox == c'.inbox + [c.inbox[|c.inbox| - 1]];
  }

  lemma StackedSend(c: Client, c': Client, sent: seq<Attempt>)
    requires Stacked(c)
    requires c'.inbox == c.inbox + Replies(sent) && c'.journal.wire == c.journal.wire + sent
    requires c'.journal.received == c.journal.received + Replies(sent)
    requires c'.journal.processed == c.journal.processed
    ensures Stacked(c')
  {
    RepliesConcat(c.journal.wire, sent);
  }

  lemma ContiguousSend(w: World, c: Client, c': Client, sent: seq<Attempt>)
    requires Contiguous(w, c)
    requires c'.journal.wire == c.journal.wire + sent
    requires c'.seqno == c.seqno + |sent| && c'.posts == c.posts + |sent|
    requires forall i | 0 <= i < |sent| ::
      sent[i].wire.sequenceNum == c.seqno + i + 1 && sent[i].result == w.post(c.posts + i)
    ensures Contiguous(w, c')
  {
    var wire, wire' := c.journal.wire, c'.journal.wire;
    forall i | 0 <= i < |wire'|
      ensures wire'[i].wire.sequenceNum == i + 1 && wire'[i].result == w.post(i)
    {
      if |wire| <= i {
        assert wire'[i] == sent[i - |wire|];
      }
    }
  }

  lemma SentNumbers(w: World, c: Client, c': Client, batch: Batch)
    requires Sends(w, c, c', batch)
    ensures forall i | 0 <= i < |batch.sent| ::
              batch.sent[i].wire.sequenceNum == c.seqno + i + 1 && batch.sent[i].result == w.post(c.posts + i)
  {
  }

  lemma BooksAfterSending(w: World, c: Client, c': Client, batch: Batch)
    requires Books(w, c) && Sends(w, c, c', batch)
    ensures Books(w, c')
  {
    hide Shaped, Numbered, AttemptAt;
    SentNumbers(w, c, c', batch);
    ConservedSend(c, c', batch);
    StackedSend(c, c', batch.sent);
    ContiguousSend(w, c, c', batch.sent);
  }

  /** What a poll means for the books: it may queue something, and it may move the top message to the processed. */
  lemma PollEntries(w: World, c: Client, c': Client, calls: seq<Call>, produced: seq<Queued>)
    requires HealthKnown(c.desk) && c.desk.outbox == [] && Polls(w, c, c', calls, produced)
    ensures c'.desk.enqueued == c.desk.enqueued + c'.desk.outbox && c'.seqno == c.seqno && c'.posts == c.posts
    ensures c'.journal == c.journal.(processed := c'.journal.processed)
    ensures if KindOf(w, c) == Serves then
              c.inbox != [] && c'.inbox == c.inbox[..|c.inbox| - 1] &&
              c'.journal.processed == c.journal.processed + [c.inbox[|c.inbox| - 1]]
            else c'.inbox == c.inbox && c'.journal.processed == c.journal.processed
  {
    assert c.desk.enqueued + [] == c.desk.enqueued;
  }

  lemma BooksAfterPolling(w: World, c: Client, c': Client, calls: seq<Call>, produced: seq<Queued>)
    requires HealthKnown(c.desk) && c.desk.outbox == [] && Books(w, c) && Polls(w, c, c', calls, produced)
    ensures Books(w, c')
  {
    PollEntries(w, c, c', calls, produced);
    hide Polls, KindOf, Numbered, Shaped;
    ConservedEnqueue(c, c', c'.desk.outbox);
    hide Conserved;
    if KindOf(w, c) == Serves {
      StackedServe(c, c');
    }
  }

  lemma BooksAfterQueueing(w: World, c: Client, c': Client)
    requires c.desk.outbox == [] && Books(w, c)
    requires c'.desk.enqueued == c.desk.enqueued + c'.desk.outbox
    requires c'.seqno == c.seqno && c'.posts == c.posts && c'.inbox == c.inbox
    requires c'.journal == c.journal.(slept := c'.journal.slept, giveUps := c'.journal.giveUps)
    ensures Books(w, c')
  {
    hide Numbered, Shaped;
    ConservedEnqueue(c, c', c'.desk.outbox);
  }

  lemma BooksElsewhere(w: World, c: Client, c': Client, move: Move)
    requires Coupled(c) && Books(w, c) && Moves(w, c, c', move) && !c.state.Polling? && !c.state.Sending?
    ensures Books(w, c')
  {
    hide Books, InitialStatus;
    assert c.desk.enqueued + [] == c.desk.enqueued;
    BooksAfterQueueing(w, c, c');
  }

  lemma BooksStep(w: World, c: Client, c': Client, move: Move)
    requires Coupled(c) && Books(w, c) && Moves(w, c, c', move)
    ensures Books(w, c')
  {
    hide Books, Polls, Sends, Dials, ReportStatus;
    match c.state {
      case Polling(_) => BooksAfterPolling(w, c, c', move.calls, move.produced);
      case Sending(_) => BooksAfterSending(w, c, c', move.batch);
      case _ => BooksElsewhere(w, c, c', move);
    }
  }

  /** The books balance after any number of triggers, in any world. */
  lemma {:induction false} BooksBalance(w: World, n: nat)
    ensures Books(w, Run(w, n))
  {
    hide HttpModel.Trigger;
    if n > 0 {
      BooksBalance(w, n - 1);
      var move := RunMoves(w, n - 1);
      BooksStep(w, Run(w, n - 1), Run(w, n), move);
    }
  }

  // ---- Every enqueued message has exactly one fate ----

  datatype Fate = Tried | Dropped | StillQueued

  function Repeat(fate: Fate, n: nat): seq<Fate> {
    seq(n, _ => fate)
  }

  function BatchFates(batches: seq<Batch>): seq<Fate> {
    if batches == [] then []
    else
      var last := |batches| - 1;
      BatchFates(batches[..last]) + (Repeat(Tried, |batches[last].sent|) + Repeat(Dropped, |batches[last].dropped|))
  }

  /** Each message ever enqueued, in order of enqueueing, by what became of it. */
  function Fates(c: Client): seq<Fate> {
    BatchFates(c.journal.batches) + Repeat(StillQueued, |c.desk.outbox|)
  }

  /** The items that met a given fate, in their order of enqueueing */
  function Met(items: seq<Queued>, fates: seq<Fate>, fate: Fate): seq<Queued>
    requires |items| == |fates|
  {
    if items == [] then []
    else
      var last := |items| - 1;
      Met(items[..last], fates[..last], fate) + (if fates[last] == fate then [items[last]] else [])
  }

  lemma MetSnoc(items: seq<Queued>, fates: seq<Fate>, item: Queued, given: Fate, fate: Fate)
    requires |items| == |fates|
    ensures Met(items + [item], fates + [given], fate) ==
            Met(items, fates, fate) + (if given == fate then [item] else [])
  {
    assert (items + [item])[..|items|] == items && (fates + [given])[..|items|] == fates;
  }

  lemma RegroupLast<T>(first: seq<T>, second: seq<T>)
    requires second != []
    ensures second == second[..|second| - 1] + [second[|second| - 1]]
    ensures first + second == (first + second[..|second| - 1]) + [second[|second| - 1]]
  {
  }

  lemma {:induction false} MetConcat(items1: seq<Queued>, fates1: seq<Fate>,
      items2: seq<Queued>, fates2: seq<Fate>, fate: Fate)
    requires |items1| == |fates1| && |items2| == |fates2|
    ensures Met(items1 + items2, fates1 + fates2, fate) == Met(items1, fates1, fate) + Met(items2, fates2, fate)
    decreases |items2|
  {
    if items2 == [] {
      assert items1 + items2 == items1 && fates1 + fates2 == fates1;
    } else {
      hide Met;
      var last := |items2| - 1;
      var items, fates := items2[..last], fates2[..last];
      MetConcat(items1, fates1, items, fates, fate);
      MetSnoc(items1 + items, fates1 + fates, items2[last], fates2[last], fate);
      MetSnoc(items, fates, items2[last], fates2[last], fate);
      RegroupLast(items1, items2);
      RegroupLast(fates1, fates2);
    }
  }

  lemma {:induction false} MetRepeat(items: seq<Queued>, given: Fate, fate: Fate)
    ensures Met(items, Repeat(given, |items|), fate) == if given == fate then items else []
    decreases |items|
  {
    if items != [] {
      var last := |items| - 1;
      MetRepeat(items[..last], given, fate);
      assert Repeat(given, |items|)[..last] == Repeat(given, last);
      assert items == items[..last] + [items[last]];
    }
  }

  function AsDealt(batch: Batch, fate: Fate): seq<Queued> {
    match fate
    case Tried => Queueds(batch.sent)
    case Dropped => batch.dropped
    case StillQueued => []
  }

  function AllDealt(batches: seq<Batch>, fate: Fate): seq<Queued> {
    if batches == [] then []
    else
      var last := |batches| - 1;
      AllDealt(batches[..last], fate) + AsDealt(batches[last], fate)
  }

  lemma BatchMet(batch: Batch, fate: Fate)
    ensures Met(Taken(batch), Repeat(Tried, |batch.sent|) + Repeat(Dropped, |batch.dropped|), fate)
         == AsDealt(batch, fate)
  {
    var sent, dropped := Queueds(batch.sent), batch.dropped;
    MetRepeat(sent, Tried, fate);
    MetRepeat(dropped, Dropped, fate);
    MetConcat(sent, Repeat(Tried, |sent|), dropped, Repeat(Dropped, |dropped|), fate);
  }

  lemma {:induction false} BatchesMet(batches: seq<Batch>, fate: Fate)
    ensures |BatchFates(batches)| == |AllTaken(batches)|
    ensures Met(AllTaken(batches), BatchFates(batches), fate) == AllDealt(batches, fate)
    decreases |batches|
  {
    hide Met, AsDealt;
    if batches == [] {
      MetRepeat([], Tried, fate);
      assert Repeat(Tried, 0) == [];
    } else {
      var last := |batches| - 1;
      var batch := batches[last];
      BatchesMet(batches[..last], fate);
      BatchMet(batch, fate);
      MetConcat(AllTaken(batches[..last]), BatchFates(batches[..last]), Taken(batch),
        Repeat(Tried, |batch.sent|) + Repeat(Dropped, |batch.dropped|), fate);
    }
  }

  lemma QueuedsConcat(first: seq<Attempt>, second: seq<Attempt>)
    ensures Queueds(first + second) == Queueds(first) + Queueds(second)
  {
  }

  lemma {:induction false} DealtToTried(batches: seq<Batch>)
    ensures AllDealt(batches, Tried) == Queueds(AllSent(batches))
    ensures AllDealt(batches, StillQueued) == []
    decreases |batches|
  {
    if batches == [] {
      assert Queueds([]) == [];
    } else {
      hide Queueds;
      var last := |batches| - 1;
      DealtToTried(batches[..last]);
      QueuedsConcat(AllSent(batches[..last]), batches[last].sent);
    }
  }

  /**
   Every message ever enqueued has exactly one fate: tried on the wire, dropped behind a failure,
   or still queued; and within each fate the order of enqueueing is kept.
   */
  lemma Conservation(w: World, n: nat)
    ensures var c := Run(w, n);
      && |Fates(c)| == |c.desk.enqueued|
      && Met(c.desk.enqueued, Fates(c), Tried) == Queueds(c.journal.wire)
      && Met(c.desk.enqueued, Fates(c), Dropped) == AllDealt(c.journal.batches, Dropped)
      && Met(c.desk.enqueued, Fates(c), StillQueued) == c.desk.outbox
  {
    BooksBalance(w, n);
    hide Run, Met;
    var c := Run(w, n);
    FateMet(c, Tried);
    FateMet(c, Dropped);
    FateMet(c, StillQueued);
    DealtToTried(c.journal.batches);
    assert Queueds(c.journal.wire) + [] == Queueds(c.journal.wire);
    assert AllDealt(c.journal.batches, Dropped) + [] == AllDealt(c.journal.batches, Dropped);
    assert [] + c.desk.outbox == c.desk.outbox;
  }

  lemma FateMet(c: Client, fate: Fate)
    requires Conserved(c)
    ensures |Fates(c)| == |c.desk.enqueued|
    ensures Met(c.desk.enqueued, Fates(c), fate) ==
      AllDealt(c.journal.batches, fate) + (if fate == StillQueued then c.desk.outbox else [])
  {
    hide Met, AllDealt;
    var batches, outbox := c.journal.batches, c.desk.outbox;
    BatchesMet(batches, fate);
    MetRepeat(outbox, StillQueued, fate);
    MetConcat(AllTaken(batches), BatchFates(batches), outbox, Repeat(StillQueued, |outbox|), fate);
  }

  // ---- The dropped ones, and runs without failures ----

  /** In every batch only the last attempt can have failed, and only behind a failure was anything dropped. */
  lemma DroppedBehindFailure(w: World, n: nat, k: nat)
    requires k < |Run(w, n).journal.batches|
    ensures var batch := Run(w, n).journal.batches[k];
      && batch.sent != []
      && (forall i | 0 <= i < |batch.sent| && batch.sent[i].result.Failed? :: i == |batch.sent| - 1)
      && (batch.dropped != [] ==> batch.sent[|batch.sent| - 1].result.Failed?)
  {
    BooksBalance(w, n);
    hide Run;
  }

  lemma {:induction false} NothingDropped(batches: seq<Batch>)
    requires forall k | 0 <= k < |batches| :: batches[k].dropped == []
    ensures AllTaken(batches) == Queueds(AllSent(batches))
  {
    if batches != [] {
      var last := |batches| - 1;
      NothingDropped(batches[..last]);
      QueuedsConcat(AllSent(batches[..last]), batches[last].sent);
    }
  }

  lemma {:induction false} LastAttemptOnWire(batches: seq<Batch>, k: nat)
    requires k < |batches| && batches[k].sent != []
    ensures exists i :: 0 <= i < |AllSent(batches)| && AllSent(batches)[i] == batches[k].sent[|batches[k].sent| - 1]
    decreases |batches|
  {
    var last := |batches| - 1;
    var before, sent := AllSent(batches[..last]), batches[k].sent;
    if k < last {
      LastAttemptOnWire(batches[..last], k);
      var i :| 0 <= i < |before| && before[i] == sent[|sent| - 1];
      assert AllSent(batches)[i] == before[i];
    } else {
      assert AllSent(batches)[|before| + |sent| - 1] == sent[|sent| - 1];
    }
  }

  /** If no request failed, what was enqueued is what was sent followed by what is still queued. */
  lemma LosslessWithoutFailures(w: World, n: nat)
    requires forall i | 0 <= i < |Run(w, n).journal.wire| :: Run(w, n).journal.wire[i].result.Delivered?
    ensures Run(w, n).desk.enqueued == Queueds(Run(w, n).journal.wire) + Run(w, n).desk.outbox
  {
    BooksBalance(w, n);
    hide Run;
    var batches := Run(w, n).journal.batches;
    forall k | 0 <= k < |batches|
      ensures batches[k].dropped == []
    {
      LastAttemptOnWire(batches, k);
    }
    NothingDropped(batches);
  }

  /** The requests made carry the numbers 1, 2, 3, ... up to the client's counter. */
  lemma ContiguousNumbering(w: World, n: nat)
    ensures var c := Run(w, n);
      && |c.journal.wire| == c.seqno
      && forall i | 0 <= i < c.seqno :: c.journal.wire[i].wire.sequenceNum == i + 1
  {
    BooksBalance(w, n);
  }

  /** Every reply received is either processed or still in the inbox, and no other is. */
  lemma InboxConservation(w: World, n: nat)
    ensures var c := Run(w, n);
      && c.journal.received == Replies(c.journal.wire)
      && multiset(c.journal.received) == multiset(c.journal.processed) + multiset(c.inbox)
  {
    BooksBalance(w, n);
  }
}
