/** Which questions put an event into the outbox, over every interleaving of extraction workers, download jobs and
    deliveries. */
module WakeupEvents {
  import opened ExtractionBarrier
  import opened AttachmentWork

  function Events(outbox: seq<AnalysisEvent>, m: MessageId): nat {
    if outbox == [] then 0
    else Events(outbox[..|outbox| - 1], m) + (if outbox[|outbox| - 1].message == m then 1 else 0)
  }

  /** The move commits an answer yes to an open gate: the message may be analysed and no event of it waits. */
  predicate OpensGate(s: State, c: Setting, move: Move) {
    SaysYes(s, move) && Gate(c.messages, s.outbox, c.m).requested
  }

  /** It does so although an event of the message was there before, and so has been delivered. */
  predicate LateAsk(s: State, c: Setting, move: Move) {
    OpensGate(s, c, move) && Events(s.outbox, c.m) > 0
  }

  ghost predicate NoLateAsk(s: State, c: Setting, moves: seq<Move>)
    requires Plays(s, c, moves)
    decreases |moves|
  {
    moves == [] || (!LateAsk(s, c, moves[0]) && NoLateAsk(Do(s, c, moves[0]), c, moves[1..]))
  }

  /** How many moves of the run meet an open gate. */
  ghost function GateOpenings(s: State, c: Setting, moves: seq<Move>): nat
    requires Plays(s, c, moves)
    decreases |moves|
  {
    if moves == [] then 0
    else (if OpensGate(s, c, moves[0]) then 1 else 0) + GateOpenings(Do(s, c, moves[0]), c, moves[1..])
  }

  lemma {:induction false} DeliveryKeepsEvents(outbox: seq<AnalysisEvent>, m: MessageId, event: nat)
    requires event < |outbox|
    ensures Events(outbox[event := outbox[event].(pending := false)], m) == Events(outbox, m)
  {
    var n, after := |outbox| - 1, outbox[event := outbox[event].(pending := false)];
    if event < n {
      DeliveryKeepsEvents(outbox[..n], m, event);
      assert after[..n] == outbox[..n][event := outbox[event].(pending := false)];
    } else {
      assert after[..n] == outbox[..n];
    }
  }

  lemma MoveEvents(s: State, c: Setting, move: Move)
    requires Can(s, c, move)
    ensures Events(Do(s, c, move).outbox, c.m) == Events(s.outbox, c.m) + (if OpensGate(s, c, move) then 1 else 0)
  {
    MoveAsks(s, c, move);
    if move.Deliver? {
      DeliveryKeepsEvents(s.outbox, c.m, move.event);
    } else {
      var asked := Asked(c, s.outbox);
      assert |asked| > |s.outbox| ==> asked[..|s.outbox|] == s.outbox;
    }
  }

  /** Every event of the message comes from a yes that met an open gate. */
  lemma {:induction false} EventsAreGateOpenings(s: State, c: Setting, moves: seq<Move>)
    requires Plays(s, c, moves)
    ensures Events(After(s, c, moves).outbox, c.m) == Events(s.outbox, c.m) + GateOpenings(s, c, moves)
    decreases |moves|
  {
    if moves != [] {
      MoveEvents(s, c, moves[0]);
      EventsAreGateOpenings(Do(s, c, moves[0]), c, moves[1..]);
    }
  }

  /** No double wakeup, exactly: the message gets no second event exactly if no yes meets an open gate after an earlier
      event was delivered. */
  lemma {:induction false} OneWakeupExactly(s: State, c: Setting, moves: seq<Move>)
    requires Plays(s, c, moves) && Events(s.outbox, c.m) <= 1
    ensures Events(After(s, c, moves).outbox, c.m) <= 1 <==> NoLateAsk(s, c, moves)
    decreases |moves|
  {
    if moves != [] {
      var t := Do(s, c, moves[0]);
      MoveEvents(s, c, moves[0]);
      EventsAreGateOpenings(t, c, moves[1..]);
      if Events(t.outbox, c.m) <= 1 { OneWakeupExactly(t, c, moves[1..]); }
    }
  }

  predicate PendingAt(outbox: seq<AnalysisEvent>, m: MessageId, i: nat) {
    i < |outbox| && outbox[i].message == m && outbox[i].pending
  }

  ghost predicate OnePending(outbox: seq<AnalysisEvent>, m: MessageId) {
    forall i, j :: PendingAt(outbox, m, i) && PendingAt(outbox, m, j) ==> i == j
  }

  lemma AskingKeepsOne(c: Setting, outbox: seq<AnalysisEvent>)
    requires OnePending(outbox, c.m)
    ensures OnePending(Asked(c, outbox), c.m)
  {
    var after := Asked(c, outbox);
    forall i: nat, j: nat | PendingAt(after, c.m, i) && PendingAt(after, c.m, j) ensures i == j {
      if i < |outbox| { assert PendingAt(outbox, c.m, i); }
      if j < |outbox| { assert PendingAt(outbox, c.m, j); }
    }
  }

  lemma DeliveryKeepsOne(outbox: seq<AnalysisEvent>, m: MessageId, event: nat)
    requires OnePending(outbox, m) && event < |outbox|
    ensures OnePending(outbox[event := outbox[event].(pending := false)], m)
  {
    var after := outbox[event := outbox[event].(pending := false)];
    forall i: nat, j: nat | PendingAt(after, m, i) && PendingAt(after, m, j) ensures i == j {
      assert PendingAt(outbox, m, i) && PendingAt(outbox, m, j);
    }
  }

  /** With deliveries in between, at most one event of the message waits at any time. */
  lemma {:induction false} NeverTwoPending(s: State, c: Setting, moves: seq<Move>)
    requires Plays(s, c, moves) && OnePending(s.outbox, c.m)
    ensures OnePending(After(s, c, moves).outbox, c.m)
    decreases |moves|
  {
    if moves != [] {
      AskingKeepsOne(c, s.outbox);
      if moves[0].Deliver? { DeliveryKeepsOne(s.outbox, c.m, moves[0].event); }
      NeverTwoPending(Do(s, c, moves[0]), c, moves[1..]);
    }
  }

  lemma AskedAgain(c: Setting, outbox: seq<AnalysisEvent>)
    ensures Asked(c, Asked(c, outbox)) == Asked(c, outbox)
  {
    GateAsksOnce(c.messages, outbox, c.m, c.m in c.messages && c.messages[c.m].version > 1,
                 c.m in c.messages && c.messages[c.m].version > 1);
  }

  predicate NoDelivery(moves: seq<Move>) {
    forall i :: 0 <= i < |moves| ==> !moves[i].Deliver?
  }

  /** As long as no event is delivered, all asking together has the effect of asking once. */
  lemma {:induction false} OneEvent(s: State, c: Setting, moves: seq<Move>)
    requires Plays(s, c, moves) && NoDelivery(moves)
    ensures var t := After(s, c, moves);
            t.outbox == if AllHits(t) > AllHits(s) then Asked(c, s.outbox) else s.outbox
    decreases |moves|
  {
    if moves != [] {
      var t := Do(s, c, moves[0]);
      MoveAsks(s, c, moves[0]);
      OneEvent(t, c, moves[1..]);
      HitsOnlyGrow(t, c, moves[1..]);
      AskedAgain(c, s.outbox);
    }
  }
}
