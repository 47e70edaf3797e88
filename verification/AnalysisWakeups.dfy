/** Who wakes the analysis, over every interleaving of extraction workers and download jobs, overlapping ones included:
    when a wakeup is early, when one is lost, and when there is a second one. */
module AnalysisWakeups {
  import opened Prelude
  import opened ExtractionBarrier
  import opened AttachmentWork

  // ---------------------------------------------------------------- what every interleaving keeps

  /** Deliveries of the message's attachments, one extraction per attachment. */
  predicate JobsOf(rows: map<AttachmentId, Attachment>, c: Setting) {
    && (forall w :: w in c.jobs ==> c.jobs[w].attachment in rows && rows[c.jobs[w].attachment].message == c.m)
    && (forall v, w :: v in c.jobs && w in c.jobs ==>
          (c.jobs[v].extraction == c.jobs[w].extraction <==> c.jobs[v].attachment == c.jobs[w].attachment))
  }

  /** A downloaded attachment without an extraction row is not extracted yet. */
  predicate Fresh(s: State, job: Job) {
    job.attachment in s.rows && job.extraction !in s.extractions && s.rows[job.attachment].download == Downloaded ==>
      !FinishedExtraction(s.rows[job.attachment].extraction)
  }

  /** An extraction row and its attachment row say the same. */
  predicate Agrees(s: State, job: Job) {
    job.attachment in s.rows && job.extraction in s.extractions ==>
      && s.rows[job.attachment].download == Downloaded
      && (s.extractions[job.extraction] == Extracting ==> s.rows[job.attachment].extraction == Extracting)
  }

  ghost predicate Shaped(s: State, c: Setting) {
    && s.phases.Keys == c.jobs.Keys && JobsOf(s.rows, c)
    && (forall w :: w in c.jobs ==> Fresh(s, c.jobs[w]))
  }

  /** What an open transaction wrote, on the row it locked. */
  predicate Writing(s: State, job: Job, row: Attachment) {
    && job.extraction in s.extractions && s.extractions[job.extraction] == Extracting
    && job.attachment in s.rows && row == Finish(s.rows[job.attachment], job.outcome)
  }

  /** The lock has one holder. */
  ghost predicate LockHeld(s: State, c: Setting) {
    && s.phases.Keys == c.jobs.Keys
    && (forall w :: w in c.jobs ==> (s.phases[w].Locked? || s.phases[w].Looked? <==> s.lock == Some(Extractor(w))))
    && (forall l :: l in s.loaders ==> (s.loaders[l].Asks? || s.loaders[l].Answers? <==> s.lock == Some(Loader(l))))
    && (forall w :: s.lock == Some(Extractor(w)) ==> w in c.jobs)
    && (forall l :: s.lock == Some(Loader(l)) ==> l in s.loaders)
  }

  /** Each open transaction holds its attachment. */
  ghost predicate Writers(s: State, c: Setting) {
    && s.phases.Keys == c.jobs.Keys
    && (forall w :: w in c.jobs && !s.phases[w].Idle? ==> Writing(s, c.jobs[w], s.phases[w].row))
    && (forall v, w :: v in c.jobs && w in c.jobs && v != w && !s.phases[v].Idle? && !s.phases[w].Idle? ==>
          c.jobs[v].attachment != c.jobs[w].attachment)
  }

  /** The rows download jobs have left are rows of the message. */
  ghost predicate Copied(s: State, c: Setting) {
    forall l, a :: l in s.loaders && s.loaders[l].Loads? && a in s.loaders[l].left ==>
      a in s.rows && s.rows[a].message == c.m && s.loaders[l].left[a].message == c.m
  }

  ghost predicate Inv(s: State, c: Setting) {
    Shaped(s, c) && LockHeld(s, c) && Writers(s, c) && Copied(s, c)
  }

  lemma FinishEnds(a: Attachment, outcome: Outcome)
    ensures Finish(a, outcome).message == a.message && Finish(a, outcome).download == a.download
    ensures FinishedExtraction(Finish(a, outcome).extraction) && (Terminal(a) ==> Terminal(Finish(a, outcome)))
  {
  }

  predicate ByWorker(move: Move) {
    move.Claim? || move.Begin? || move.TakeLock? || move.Look? || move.Commit? || move.Abort?
  }

  lemma RowShapes(s: State, c: Setting, move: Move)
    requires Inv(s, c) && Can(s, c, move) && (move.Claim? || move.Commit?)
    ensures Shaped(Do(s, c, move), c)
  {
    var t := Do(s, c, move);
    if move.Commit? { assert Writing(s, c.jobs[move.w], s.phases[move.w].row); }
    forall v | v in c.jobs ensures Fresh(t, c.jobs[v]) {
      assert Fresh(s, c.jobs[v]);
    }
    assert JobsOf(t.rows, c);
  }

  lemma SaveShapes(s: State, c: Setting, move: Move)
    requires Inv(s, c) && Can(s, c, move) && move.Save?
    ensures Shaped(Do(s, c, move), c)
  {
    var t := Do(s, c, move);
    assert s.rows[move.a].message == c.m && t.rows[move.a].message == c.m;
    forall v | v in c.jobs ensures Fresh(t, c.jobs[v]) {
      assert Fresh(s, c.jobs[v]);
    }
    assert JobsOf(t.rows, c);
  }

  lemma QuietShapes(s: State, c: Setting, t: State)
    requires Shaped(s, c) && t.rows == s.rows && t.extractions == s.extractions && t.phases.Keys == s.phases.Keys
    ensures Shaped(t, c)
  {
    forall v | v in c.jobs ensures Fresh(t, c.jobs[v]) {
      assert Fresh(s, c.jobs[v]);
    }
  }

  lemma RowCopies(s: State, c: Setting, move: Move)
    requires Inv(s, c) && Can(s, c, move) && (move.Claim? || move.Commit?)
    ensures Copied(Do(s, c, move), c)
  {
    if move.Commit? { assert Writing(s, c.jobs[move.w], s.phases[move.w].row); }
    assert Do(s, c, move).loaders == s.loaders;
  }

  lemma QuietCopies(s: State, c: Setting, t: State)
    requires Copied(s, c) && t.rows == s.rows && t.loaders == s.loaders
    ensures Copied(t, c)
  {
  }

  lemma SaveCopies(s: State, c: Setting, move: Move)
    requires Inv(s, c) && Can(s, c, move) && move.Save?
    ensures Copied(Do(s, c, move), c)
  {
    assert s.rows[move.a].message == c.m && s.loaders[move.l].left[move.a].message == c.m;
  }

  lemma LoaderCopies(s: State, c: Setting, move: Move)
    requires Copied(s, c) && Can(s, c, move) && !ByWorker(move) && !move.Save?
    ensures Copied(Do(s, c, move), c)
  {
    assert Do(s, c, move).rows == s.rows;
  }

  lemma WorkerLocks(s: State, c: Setting, move: Move)
    requires LockHeld(s, c) && Can(s, c, move) && ByWorker(move)
    ensures LockHeld(Do(s, c, move), c)
  {
  }

  lemma LoaderLocks(s: State, c: Setting, move: Move)
    requires LockHeld(s, c) && Can(s, c, move) && !ByWorker(move)
    ensures LockHeld(Do(s, c, move), c)
  {
  }

  /** A row that changes was not locked by anybody else. */
  lemma RowWrites(s: State, c: Setting, move: Move)
    requires Inv(s, c) && Can(s, c, move) && (move.Claim? || move.Commit?)
    ensures Writers(Do(s, c, move), c)
  {
    var t := Do(s, c, move);
    forall v | v in c.jobs && !t.phases[v].Idle? ensures Writing(t, c.jobs[v], t.phases[v].row) {
      assert Writing(s, c.jobs[v], s.phases[v].row);
    }
  }

  lemma BeginWrites(s: State, c: Setting, w: Worker)
    requires Inv(s, c) && Can(s, c, Begin(w))
    ensures Writers(Do(s, c, Begin(w)), c)
  {
    var t := Do(s, c, Begin(w));
    assert Writing(t, c.jobs[w], t.phases[w].row);
    forall v | v in c.jobs && !s.phases[v].Idle? ensures Writing(t, c.jobs[v], s.phases[v].row) {
      assert Writing(s, c.jobs[v], s.phases[v].row);
    }
  }

  /** A transaction goes on with the row it wrote, or ends. */
  lemma PhaseWrites(s: State, c: Setting, t: State, w: Worker)
    requires Writers(s, c) && w in c.jobs && !s.phases[w].Idle? && w in t.phases
    requires t.phases == s.phases[w := t.phases[w]] && t.rows == s.rows && t.extractions == s.extractions
    requires t.phases[w].Idle? || t.phases[w].row == s.phases[w].row
    ensures Writers(t, c)
  {
    forall v | v in c.jobs && !t.phases[v].Idle? ensures Writing(t, c.jobs[v], t.phases[v].row) {
      assert Writing(s, c.jobs[v], s.phases[v].row);
    }
  }

  lemma LoaderWrites(s: State, c: Setting, move: Move)
    requires Inv(s, c) && Can(s, c, move) && !ByWorker(move)
    ensures Writers(Do(s, c, move), c)
  {
    var t := Do(s, c, move);
    assert t.phases == s.phases && t.extractions == s.extractions;
    forall v | v in c.jobs && !t.phases[v].Idle? ensures Writing(t, c.jobs[v], t.phases[v].row) {
      assert Writing(s, c.jobs[v], s.phases[v].row);
    }
  }

  lemma MoveKeeps(s: State, c: Setting, move: Move)
    requires Inv(s, c) && Can(s, c, move)
    ensures Inv(Do(s, c, move), c)
  {
    if move.Claim? || move.Commit? {
      RowKeeps(s, c, move);
    } else if ByWorker(move) {
      PhaseKeeps(s, c, move);
    } else {
      LoaderKeeps(s, c, move);
    }
  }

  lemma RowKeeps(s: State, c: Setting, move: Move)
    requires Inv(s, c) && Can(s, c, move) && (move.Claim? || move.Commit?)
    ensures Inv(Do(s, c, move), c)
  {
    RowShapes(s, c, move);
    RowWrites(s, c, move);
    RowCopies(s, c, move);
    WorkerLocks(s, c, move);
  }

  lemma PhaseKeeps(s: State, c: Setting, move: Move)
    requires Inv(s, c) && Can(s, c, move) && ByWorker(move) && !move.Claim? && !move.Commit?
    ensures Inv(Do(s, c, move), c)
  {
    QuietShapes(s, c, Do(s, c, move));
    QuietCopies(s, c, Do(s, c, move));
    if move.Begin? { BeginWrites(s, c, move.w); } else { PhaseWrites(s, c, Do(s, c, move), move.w); }
    WorkerLocks(s, c, move);
  }

  lemma LoaderKeeps(s: State, c: Setting, move: Move)
    requires Inv(s, c) && Can(s, c, move) && !ByWorker(move)
    ensures Inv(Do(s, c, move), c)
  {
    if move.Save? {
      SaveShapes(s, c, move);
      SaveCopies(s, c, move);
    } else {
      QuietShapes(s, c, Do(s, c, move));
      LoaderCopies(s, c, move);
    }
    LoaderLocks(s, c, move);
    LoaderWrites(s, c, move);
  }

  /** Some attachment is unfinished, nobody has begun, and rows and deliveries fit together. */
  ghost predicate Starts(s: State, c: Setting) {
    && (forall w :: w in s.phases ==> s.phases[w].Idle?) && (forall l :: l in s.loaders ==> s.loaders[l].NotLoading?)
    && s.lock == None && s.extracted == [] && s.loaded == []
    && Shaped(s, c) && (forall w :: w in c.jobs ==> Agrees(s, c.jobs[w])) && !ReadyForAnalysis(s.rows, c.m)
  }

  lemma {:induction false} InvHolds(s: State, c: Setting, moves: seq<Move>)
    requires Inv(s, c) && Plays(s, c, moves)
    ensures Inv(After(s, c, moves), c)
    decreases |moves|
  {
    if moves != [] {
      MoveKeeps(s, c, moves[0]);
      InvHolds(Do(s, c, moves[0]), c, moves[1..]);
    }
  }

  // ---------------------------------------------------------------- no early wakeup

  /** A worker that has looked and not committed yet saw everything finished. */
  predicate SawDone(s: State, w: Worker) {
    w in s.phases && s.phases[w].Looked? && s.phases[w].ready
  }

  predicate FoundDone(s: State, l: Worker) {
    l in s.loaders && s.loaders[l].Answers? && s.loaders[l].ready
  }

  /** Somebody has asked, or has looked and is about to. */
  predicate Concluded(s: State, c: Setting) {
    AllHits(s) > 0 || (exists w :: w in c.jobs && SawDone(s, w)) || (exists l :: l in s.loaders && FoundDone(s, l))
  }

  /** Whoever has asked or is about to is right: all attachments are finished. */
  ghost predicate Right(s: State, c: Setting) {
    && s.phases.Keys == c.jobs.Keys
    && (AllHits(s) > 0 ==> ReadyForAnalysis(s.rows, c.m))
    && (forall w :: w in c.jobs && SawDone(s, w) ==> ReadyForAnalysis(View(s, c.jobs[w], s.phases[w].row), c.m))
    && (forall l :: l in s.loaders && FoundDone(s, l) ==> ReadyForAnalysis(s.rows, c.m))
  }

  predicate Ends(result: Saved) {
    result.NotStored? || result.OnlyMetadata?
  }

  /** The save comes before anybody concluded, or the attachment stays finished: what a job could check before it. */
  predicate SafeSave(s: State, c: Setting, move: Move) {
    move.Save? && Concluded(s, c) ==> Ends(move.result)
  }

  /** One row of the message is replaced. */
  lemma RowDecides(rows: map<AttachmentId, Attachment>, m: MessageId, a: AttachmentId, row: Attachment)
    requires a in rows && rows[a].message == m && row.message == m
    ensures !Terminal(row) ==> !ReadyForAnalysis(rows[a := row], m)
    ensures Terminal(row) && ReadyForAnalysis(rows, m) ==> ReadyForAnalysis(rows[a := row], m)
  {
    assert a in rows[a := row] && rows[a := row][a] == row;
  }

  /** A save and an open transaction write different rows. */
  lemma SaveBeside(s: State, c: Setting, move: Move, w: Worker)
    requires Inv(s, c) && Can(s, c, move) && move.Save? && w in c.jobs && !s.phases[w].Idle?
    ensures var row, t := SavedRow(s.loaders[move.l].left[move.a], move.result), Do(s, c, move);
            var view := View(s, c.jobs[w], s.phases[w].row);
            && c.jobs[w].attachment != move.a && move.a in view && view[move.a].message == c.m && row.message == c.m
            && View(t, c.jobs[w], t.phases[w].row) == view[move.a := row]
  {
    assert Writing(s, c.jobs[w], s.phases[w].row);
    assert s.rows[move.a].message == c.m && s.loaders[move.l].left[move.a].message == c.m;
  }

  lemma SaveConcludes(s: State, c: Setting, move: Move)
    requires Inv(s, c) && Can(s, c, move) && move.Save?
    ensures var t := Do(s, c, move);
            && AllHits(t) == AllHits(s) && (forall w :: SawDone(t, w) == SawDone(s, w)) && (forall l :: FoundDone(t, l) == FoundDone(s, l))
  {
  }

  /** A save keeps everybody right exactly if it is safe; and what was asked already, exactly if nobody has asked or the
      attachment stays finished. */
  lemma SaveKeepsExactly(s: State, c: Setting, move: Move)
    requires Inv(s, c) && Right(s, c) && Can(s, c, move) && move.Save?
    ensures Right(Do(s, c, move), c) <==> SafeSave(s, c, move)
    ensures (AllHits(s) > 0 ==> ReadyForAnalysis(Do(s, c, move).rows, c.m)) <==> (AllHits(s) == 0 || Ends(move.result))
  {
    var t, row := Do(s, c, move), SavedRow(s.loaders[move.l].left[move.a], move.result);
    assert s.rows[move.a].message == c.m && row.message == c.m && Terminal(row) == Ends(move.result);
    RowDecides(s.rows, c.m, move.a, row);
    SaveConcludes(s, c, move);
    forall w | w in c.jobs && SawDone(s, w)
      ensures ReadyForAnalysis(View(t, c.jobs[w], t.phases[w].row), c.m) <==> Ends(move.result)
    {
      SaveBeside(s, c, move, w);
      RowDecides(View(s, c.jobs[w], s.phases[w].row), c.m, move.a, row);
    }
  }

  lemma ClaimOpens(s: State, c: Setting, w: Worker)
    requires Inv(s, c) && Can(s, c, Claim(w))
    ensures !Terminal(s.rows[c.jobs[w].attachment]) && !ReadyForAnalysis(s.rows, c.m)
  {
    var a := c.jobs[w].attachment;
    assert Fresh(s, c.jobs[w]) && !Terminal(s.rows[a]);
    RowDecides(s.rows, c.m, a, s.rows[a]);
    assert s.rows[a := s.rows[a]] == s.rows;
  }

  /** Claiming opens a row that was open: nobody had concluded. */
  lemma ClaimIsOpen(s: State, c: Setting, w: Worker)
    requires Inv(s, c) && Right(s, c) && Can(s, c, Claim(w))
    ensures !Concluded(s, c) && !ReadyForAnalysis(s.rows, c.m) && !ReadyForAnalysis(Do(s, c, Claim(w)).rows, c.m)
  {
    var a := c.jobs[w].attachment;
    ClaimOpens(s, c, w);
    RowDecides(s.rows, c.m, a, ClaimRow(s.rows[a]));
    forall v | v in c.jobs && !s.phases[v].Idle? ensures !ReadyForAnalysis(View(s, c.jobs[v], s.phases[v].row), c.m) {
      assert Writing(s, c.jobs[v], s.phases[v].row);
      var view := View(s, c.jobs[v], s.phases[v].row);
      assert a in view && view[a] == s.rows[a];
    }
  }

  lemma ClaimIsRight(s: State, c: Setting, w: Worker)
    requires Inv(s, c) && Right(s, c) && Can(s, c, Claim(w))
    ensures Right(Do(s, c, Claim(w)), c)
  {
    var t := Do(s, c, Claim(w));
    ClaimIsOpen(s, c, w);
    assert forall v :: SawDone(t, v) == SawDone(s, v);
    assert forall l :: FoundDone(t, l) == FoundDone(s, l);
  }

  /** Nobody is between look and commit. */
  ghost predicate Settled(t: State, c: Setting) {
    && (forall v :: v in c.jobs ==> v in t.phases && !t.phases[v].Looked?)
    && (forall l :: l in t.loaders ==> !t.loaders[l].Answers?)
    && t.phases.Keys == c.jobs.Keys
  }

  /** Who commits holds the lock, so nobody else has looked. */
  lemma CommitSettles(s: State, c: Setting, w: Worker)
    requires Inv(s, c) && Can(s, c, Commit(w))
    ensures Settled(Do(s, c, Commit(w)), c)
  {
    assert s.lock == Some(Extractor(w));
    var t := Do(s, c, Commit(w));
    assert t.phases == s.phases[w := Idle] && t.loaders == s.loaders;
  }

  lemma CommitEnds(s: State, c: Setting, w: Worker)
    requires Inv(s, c) && Right(s, c) && Can(s, c, Commit(w)) && AllHits(Do(s, c, Commit(w))) > 0
    ensures ReadyForAnalysis(Do(s, c, Commit(w)).rows, c.m)
  {
    var a := c.jobs[w].attachment;
    assert Writing(s, c.jobs[w], s.phases[w].row);
    MoveAsks(s, c, Commit(w));
    if !s.phases[w].ready {
      FinishEnds(s.rows[a], c.jobs[w].outcome);
      RowDecides(s.rows, c.m, a, s.phases[w].row);
      assert Terminal(s.rows[a]);
    }
  }

  lemma SettledIsRight(t: State, c: Setting)
    requires Settled(t, c) && (AllHits(t) > 0 ==> ReadyForAnalysis(t.rows, c.m))
    ensures Right(t, c)
  {
  }

  lemma CommitIsRight(s: State, c: Setting, w: Worker)
    requires Inv(s, c) && Right(s, c) && Can(s, c, Commit(w))
    ensures Right(Do(s, c, Commit(w)), c)
  {
    var t := Do(s, c, Commit(w));
    CommitSettles(s, c, w);
    if AllHits(t) > 0 { CommitEnds(s, c, w); }
    SettledIsRight(t, c);
  }

  /** The other moves of workers change no committed row. */
  lemma PhaseIsRight(s: State, c: Setting, t: State, w: Worker)
    requires Right(s, c) && w in c.jobs && w in t.phases && t == s.(phases := s.phases[w := t.phases[w]], lock := t.lock)
    requires SawDone(t, w) ==> ReadyForAnalysis(View(t, c.jobs[w], t.phases[w].row), c.m)
    ensures Right(t, c)
  {
    assert forall l :: FoundDone(t, l) == FoundDone(s, l);
    forall v | v in c.jobs && SawDone(t, v) ensures ReadyForAnalysis(View(t, c.jobs[v], t.phases[v].row), c.m) {
      if v != w { assert SawDone(s, v); }
    }
  }

  /** So do the moves of download jobs, but for their saves. */
  lemma LoaderIsRight(s: State, c: Setting, t: State, l: Worker)
    requires Right(s, c) && t.rows == s.rows && t.phases == s.phases && (AllHits(t) > 0 ==> AllHits(s) > 0 || FoundDone(s, l))
    requires l in t.loaders && t.loaders == s.loaders[l := t.loaders[l]]
    requires FoundDone(t, l) ==> ReadyForAnalysis(t.rows, c.m)
    ensures Right(t, c)
  {
    assert forall v :: SawDone(t, v) == SawDone(s, v);
    forall k | k in t.loaders && FoundDone(t, k) ensures ReadyForAnalysis(t.rows, c.m) {
      if k != l { assert FoundDone(s, k); }
    }
  }

  lemma LoaderRight(s: State, c: Setting, move: Move)
    requires Inv(s, c) && Right(s, c) && Can(s, c, move) && !ByWorker(move) && !move.Save?
    ensures Right(Do(s, c, move), c)
  {
    MoveAsks(s, c, move);
    var t := Do(s, c, move);
    if move.Deliver? {
      assert forall v :: SawDone(t, v) == SawDone(s, v);
      assert forall l :: FoundDone(t, l) == FoundDone(s, l);
    } else {
      LoaderIsRight(s, c, t, move.l);
    }
  }

  lemma MoveIsRight(s: State, c: Setting, move: Move)
    requires Inv(s, c) && Right(s, c) && Can(s, c, move)
    ensures Right(Do(s, c, move), c) <==> SafeSave(s, c, move)
  {
    if move.Save? {
      SaveKeepsExactly(s, c, move);
    } else if move.Claim? {
      ClaimIsRight(s, c, move.w);
    } else if move.Commit? {
      CommitIsRight(s, c, move.w);
    } else if ByWorker(move) {
      PhaseIsRight(s, c, Do(s, c, move), move.w);
    } else {
      LoaderRight(s, c, move);
    }
  }

  /** At each point of the run everybody is right. */
  ghost predicate AlwaysRight(s: State, c: Setting, moves: seq<Move>)
    requires Plays(s, c, moves)
    decreases |moves|
  {
    Right(s, c) && (moves == [] || AlwaysRight(Do(s, c, moves[0]), c, moves[1..]))
  }

  /** Each save is safe where it is taken. */
  ghost predicate SafelySaved(s: State, c: Setting, moves: seq<Move>)
    requires Plays(s, c, moves)
    decreases |moves|
  {
    moves == [] || (SafeSave(s, c, moves[0]) && SafelySaved(Do(s, c, moves[0]), c, moves[1..]))
  }

  lemma {:induction false} RightExactly(s: State, c: Setting, moves: seq<Move>)
    requires Inv(s, c) && Right(s, c) && Plays(s, c, moves)
    ensures AlwaysRight(s, c, moves) <==> SafelySaved(s, c, moves)
    ensures SafelySaved(s, c, moves) ==> Right(After(s, c, moves), c)
    decreases |moves|
  {
    if moves != [] {
      var t := Do(s, c, moves[0]);
      MoveKeeps(s, c, moves[0]);
      MoveIsRight(s, c, moves[0]);
      if SafeSave(s, c, moves[0]) { RightExactly(t, c, moves[1..]); }
    }
  }

  /** No early wakeup: over any interleaving, download jobs that overlap included, nobody ever asks or is about to ask
      while an attachment is unfinished, exactly if every save is safe where it is taken. */
  lemma NoEarlyWakeup(s: State, c: Setting, moves: seq<Move>)
    requires Starts(s, c) && Plays(s, c, moves)
    ensures AlwaysRight(s, c, moves) <==> SafelySaved(s, c, moves)
    ensures SafelySaved(s, c, moves) && AllHits(After(s, c, moves)) > 0 ==> ReadyForAnalysis(After(s, c, moves).rows, c.m)
  {
    RightExactly(s, c, moves);
  }

  // ---------------------------------------------------------------- no lost wakeup

  /** The download job will still ask, or died before it could. */
  predicate Owes(p: Loading) {
    p.Loads? || p.Asks? || p.Died? || (p.Answers? && p.ready)
  }

  predicate SomeoneOwes(s: State) {
    exists l :: l in s.loaders && Owes(s.loaders[l])
  }

  predicate SawOpen(s: State, w: Worker) {
    w in s.phases && s.phases[w].Looked? && !s.phases[w].ready
  }

  predicate FoundOpen(s: State, l: Worker) {
    l in s.loaders && s.loaders[l].Answers? && !s.loaders[l].ready
  }

  /** Once everything is finished, somebody has asked or some download job owes it; the same for those who looked and
      saw something open. */
  ghost predicate NotMissed(s: State, c: Setting) {
    && s.phases.Keys == c.jobs.Keys
    && (ReadyForAnalysis(s.rows, c.m) ==> AllHits(s) > 0 || SomeoneOwes(s))
    && (forall w :: w in c.jobs && SawOpen(s, w) && ReadyForAnalysis(View(s, c.jobs[w], s.phases[w].row), c.m) ==> SomeoneOwes(s))
    && (forall l :: l in s.loaders && FoundOpen(s, l) && ReadyForAnalysis(s.rows, c.m) ==> SomeoneOwes(s))
  }

  lemma SameOwes(s: State, t: State)
    requires t.loaders == s.loaders
    ensures SomeoneOwes(t) == SomeoneOwes(s)
  {
  }

  lemma CommitMisses(s: State, c: Setting, w: Worker)
    requires Inv(s, c) && NotMissed(s, c) && Can(s, c, Commit(w))
    ensures NotMissed(Do(s, c, Commit(w)), c)
  {
    var t := Do(s, c, Commit(w));
    MoveAsks(s, c, Commit(w));
    SameOwes(s, t);
    CommitSettles(s, c, w);
    assert forall v :: v in c.jobs ==> !SawOpen(t, v);
    assert forall l :: l in t.loaders ==> !FoundOpen(t, l);
    assert SawDone(s, w) || SawOpen(s, w);
  }

  /** After a claim its row is open, for everybody. */
  lemma ClaimMisses(s: State, c: Setting, w: Worker)
    requires Inv(s, c) && NotMissed(s, c) && Can(s, c, Claim(w))
    ensures NotMissed(Do(s, c, Claim(w)), c)
  {
    var t, a := Do(s, c, Claim(w)), c.jobs[w].attachment;
    RowDecides(s.rows, c.m, a, ClaimRow(s.rows[a]));
    forall v | v in c.jobs && !s.phases[v].Idle? ensures !ReadyForAnalysis(View(t, c.jobs[v], t.phases[v].row), c.m) {
      assert Writing(s, c.jobs[v], s.phases[v].row);
      var view := View(t, c.jobs[v], t.phases[v].row);
      assert a in view && view[a] == t.rows[a];
    }
  }

  lemma PhaseMisses(s: State, c: Setting, t: State, w: Worker)
    requires NotMissed(s, c) && w in c.jobs && w in t.phases && t == s.(phases := s.phases[w := t.phases[w]], lock := t.lock)
    requires SawOpen(t, w) ==> !ReadyForAnalysis(View(t, c.jobs[w], t.phases[w].row), c.m)
    ensures NotMissed(t, c)
  {
    SameOwes(s, t);
    assert forall l :: FoundOpen(t, l) == FoundOpen(s, l);
    forall v | v in c.jobs && SawOpen(t, v) && ReadyForAnalysis(View(t, c.jobs[v], t.phases[v].row), c.m) ensures SomeoneOwes(t) {
      if v != w { assert SawOpen(s, v); }
    }
  }

  /** A job that answered no owed nothing, so whoever owes is someone else. */
  lemma OthersOwe(s: State, t: State, l: Worker)
    requires l in s.loaders && l in t.loaders && t.loaders == s.loaders[l := t.loaders[l]] && !Owes(s.loaders[l]) && SomeoneOwes(s)
    ensures SomeoneOwes(t)
  {
    var k :| k in s.loaders && Owes(s.loaders[k]);
    assert k in t.loaders && Owes(t.loaders[k]);
  }

  lemma AnswerMisses(s: State, c: Setting, l: Worker)
    requires Inv(s, c) && NotMissed(s, c) && Can(s, c, CommitLoader(l))
    ensures NotMissed(Do(s, c, CommitLoader(l)), c)
  {
    var t := Do(s, c, CommitLoader(l));
    MoveAsks(s, c, CommitLoader(l));
    assert s.lock == Some(Loader(l));
    assert forall v :: v in c.jobs ==> !SawOpen(t, v);
    assert forall k :: k in t.loaders ==> !FoundOpen(t, k);
    if !s.loaders[l].ready && SomeoneOwes(s) { OthersOwe(s, t, l); }
    assert FoundDone(s, l) || FoundOpen(s, l);
  }

  /** A job that owes afterwards settles the rest. */
  lemma OwingMisses(s: State, c: Setting, t: State, l: Worker)
    requires NotMissed(s, c) && t.phases == s.phases && l in t.loaders && Owes(t.loaders[l])
    ensures NotMissed(t, c)
  {
    assert SomeoneOwes(t);
  }

  lemma LookMisses(s: State, c: Setting, l: Worker)
    requires Inv(s, c) && NotMissed(s, c) && Can(s, c, LookLoader(l)) && !ReadyForAnalysis(s.rows, c.m)
    ensures NotMissed(Do(s, c, LookLoader(l)), c)
  {
    assert s.lock == Some(Loader(l));
    assert forall v :: v in c.jobs ==> !SawOpen(s, v);
  }

  lemma LoaderMisses(s: State, c: Setting, move: Move)
    requires Inv(s, c) && NotMissed(s, c) && Can(s, c, move) && !ByWorker(move)
    ensures NotMissed(Do(s, c, move), c)
  {
    var t := Do(s, c, move);
    match move
    case CommitLoader(l) => AnswerMisses(s, c, l);
    case LookLoader(l) =>
      if ReadyForAnalysis(s.rows, c.m) { OwingMisses(s, c, t, l); } else { LookMisses(s, c, l); }
    case Load(l) => OwingMisses(s, c, t, l);
    case Save(l, _, _) => OwingMisses(s, c, t, l);
    case LockLoader(l) => OwingMisses(s, c, t, l);
    case Die(l) => OwingMisses(s, c, t, l);
    case Deliver(_) => DeliverMisses(s, c, t);
  }

  lemma DeliverMisses(s: State, c: Setting, t: State)
    requires NotMissed(s, c) && t == s.(outbox := t.outbox)
    ensures NotMissed(t, c)
  {
    SameOwes(s, t);
    assert forall v :: SawOpen(t, v) == SawOpen(s, v);
    assert forall l :: FoundOpen(t, l) == FoundOpen(s, l);
  }

  lemma MoveMisses(s: State, c: Setting, move: Move)
    requires Inv(s, c) && NotMissed(s, c) && Can(s, c, move)
    ensures NotMissed(Do(s, c, move), c)
  {
    if move.Commit? {
      CommitMisses(s, c, move.w);
    } else if move.Claim? {
      ClaimMisses(s, c, move.w);
    } else if ByWorker(move) {
      PhaseMisses(s, c, Do(s, c, move), move.w);
    } else {
      LoaderMisses(s, c, move);
    }
  }

  lemma {:induction false} NotMissedHolds(s: State, c: Setting, moves: seq<Move>)
    requires Inv(s, c) && NotMissed(s, c) && Plays(s, c, moves)
    ensures NotMissed(After(s, c, moves), c)
    decreases |moves|
  {
    if moves != [] {
      MoveKeeps(s, c, moves[0]);
      MoveMisses(s, c, moves[0]);
      NotMissedHolds(Do(s, c, moves[0]), c, moves[1..]);
    }
  }

  /** No lost wakeup: once all attachments are finished somebody has asked, unless a download job still will or died
      before it could. */
  lemma NoLostWakeup(s: State, c: Setting, moves: seq<Move>)
    requires Starts(s, c) && Plays(s, c, moves)
    requires ReadyForAnalysis(After(s, c, moves).rows, c.m) && !SomeoneOwes(After(s, c, moves))
    ensures AllHits(After(s, c, moves)) > 0
  {
    NotMissedHolds(s, c, moves);
  }

  function Mover(move: Move): Option<Holder> {
    match move
    case Deliver(_) => None
    case Claim(w) => Some(Extractor(w))
    case Begin(w) => Some(Extractor(w))
    case TakeLock(w) => Some(Extractor(w))
    case Look(w) => Some(Extractor(w))
    case Commit(w) => Some(Extractor(w))
    case Abort(w) => Some(Extractor(w))
    case _ => Some(Loader(move.l))
  }

  /** Its next move is to commit what it saw. */
  predicate CommitsNext(p: Holder, moves: seq<Move>)
    decreases |moves|
  {
    moves != [] && (if Mover(moves[0]) == Some(p) then moves[0].Commit? || moves[0].CommitLoader? else CommitsNext(p, moves[1..]))
  }

  /** A look at rows all of which are finished. */
  predicate LooksAtDone(s: State, c: Setting, move: Move)
    requires Can(s, c, move)
  {
    || (move.Look? && ReadyForAnalysis(View(s, c.jobs[move.w], s.phases[move.w].row), c.m))
    || (move.LookLoader? && ReadyForAnalysis(s.rows, c.m))
  }

  /** Somebody looked when all rows it saw were finished, and committed. */
  ghost predicate LookCommitted(s: State, c: Setting, moves: seq<Move>)
    requires Plays(s, c, moves)
    decreases |moves|
  {
    && moves != []
    && ((LooksAtDone(s, c, moves[0]) && CommitsNext(Mover(moves[0]).value, moves[1..]))
        || LookCommitted(Do(s, c, moves[0]), c, moves[1..]))
  }

  /** It has looked and seen everything finished. */
  predicate KnowsDone(s: State, p: Holder) {
    match p
    case Extractor(w) => SawDone(s, w)
    case Loader(l) => FoundDone(s, l)
  }

  /** What somebody knows changes by its own moves only. */
  lemma KnowsAfter(s: State, c: Setting, move: Move, p: Holder)
    requires Can(s, c, move)
    ensures KnowsDone(Do(s, c, move), p) <==>
            if Mover(move) == Some(p) then LooksAtDone(s, c, move) else KnowsDone(s, p)
  {
  }

  /** Asking again and again comes down to looks that were right and committed. */
  lemma {:induction false} AskedFrom(s: State, c: Setting, moves: seq<Move>)
    requires Plays(s, c, moves)
    ensures AllHits(After(s, c, moves)) > AllHits(s) <==>
            LookCommitted(s, c, moves) || exists p :: KnowsDone(s, p) && CommitsNext(p, moves)
    decreases |moves|
  {
    if moves != [] {
      var t, rest := Do(s, c, moves[0]), moves[1..];
      AskedFrom(t, c, rest);
      MoveAsks(s, c, moves[0]);
      HitsOnlyGrow(t, c, rest);
      if SaysYes(s, moves[0]) {
        var p := Mover(moves[0]).value;
        assert KnowsDone(s, p) && CommitsNext(p, moves);
      } else {
        forall p ensures KnowsDone(t, p) && CommitsNext(p, rest) <==>
                  (KnowsDone(s, p) && CommitsNext(p, moves))
                  || (LooksAtDone(s, c, moves[0]) && Mover(moves[0]) == Some(p) && CommitsNext(p, rest))
        {
          KnowsAfter(s, c, moves[0], p);
        }
        if LooksAtDone(s, c, moves[0]) && CommitsNext(Mover(moves[0]).value, rest) {
          assert KnowsDone(t, Mover(moves[0]).value) && CommitsNext(Mover(moves[0]).value, rest);
        }
      }
    }
  }

  /** Lost exactly: from the start, nobody has asked exactly if no look at finished rows was committed, over whichever
      aborts, deaths and overlaps. */
  lemma LostExactly(s: State, c: Setting, moves: seq<Move>)
    requires Starts(s, c) && Plays(s, c, moves)
    ensures AllHits(After(s, c, moves)) == 0 <==> !LookCommitted(s, c, moves)
  {
    AskedFrom(s, c, moves);
    assert forall p :: !KnowsDone(s, p);
  }

  // ---------------------------------------------------------------- and how it is repaired

  function JobMoves(l: Worker): seq<Move> {
    [Load(l), LockLoader(l), LookLoader(l), CommitLoader(l)]
  }

  lemma NothingLeft(s: State, m: MessageId)
    requires ReadyForAnalysis(s.rows, m)
    ensures Undownloaded(s, m) == map[]
  {
    assert forall a :: a in s.rows && s.rows[a].message == m ==> Terminal(s.rows[a]);
  }

  /** With everything finished and the lock free, a job that has nothing left asks. */
  lemma JobAsks(s: State, c: Setting, l: Worker)
    requires l in s.loaders && s.loaders[l] == Loads(map[]) && s.lock == None && ReadyForAnalysis(s.rows, c.m)
    ensures Plays(s, c, JobMoves(l)[1..])
    ensures After(s, c, JobMoves(l)[1..]) ==
            s.(loaders := s.loaders[l := NotLoading], outbox := Asked(c, s.outbox), loaded := s.loaded + [true])
  {
    var s1 := s.(loaders := s.loaders[l := Asks], lock := Some(Loader(l)));
    var s2 := s1.(loaders := s.loaders[l := Answers(true)]);
    var moves := JobMoves(l)[1..];
    assert moves[1..][1..] == [CommitLoader(l)];
    assert Do(s, c, LockLoader(l)) == s1 && Do(s1, c, LookLoader(l)) == s2;
    OneMove(s2, c, CommitLoader(l));
    NextMove(s1, c, moves[1..], s2);
    NextMove(s, c, moves, s1);
  }

  /** A lost wakeup can always be made good: with everything finished and the lock free, a new download job can run to
      its end, and it asks. */
  lemma NewJobRepairs(s: State, c: Setting, l: Worker)
    requires l in s.loaders && s.loaders[l].NotLoading? && s.lock == None && ReadyForAnalysis(s.rows, c.m)
    ensures Plays(s, c, JobMoves(l))
    ensures After(s, c, JobMoves(l)) == s.(outbox := Asked(c, s.outbox), loaded := s.loaded + [true])
    ensures AllHits(After(s, c, JobMoves(l))) == AllHits(s) + 1
  {
    NothingLeft(s, c.m);
    var s1 := s.(loaders := s.loaders[l := Loads(map[])]);
    assert Do(s, c, Load(l)) == s1;
    JobAsks(s1, c, l);
    NextMove(s, c, JobMoves(l), s1);
    assert s.loaders[l := NotLoading] == s.loaders;
    HitsGrow(s.loaded, true);
  }

  /** No save of the run reopens an attachment. */
  predicate OnlyEnds(moves: seq<Move>) {
    forall i :: 0 <= i < |moves| && moves[i].Save? ==> Ends(moves[i].result)
  }

  lemma ReadyStays(s: State, c: Setting, move: Move)
    requires Inv(s, c) && ReadyForAnalysis(s.rows, c.m) && Can(s, c, move) && (move.Save? ==> Ends(move.result))
    ensures ReadyForAnalysis(Do(s, c, move).rows, c.m)
  {
    if move.Save? {
      assert s.rows[move.a].message == c.m && s.loaders[move.l].left[move.a].message == c.m;
      RowDecides(s.rows, c.m, move.a, SavedRow(s.loaders[move.l].left[move.a], move.result));
    } else if move.Claim? {
      ClaimOpens(s, c, move.w);
    } else if move.Commit? {
      var a := c.jobs[move.w].attachment;
      assert Writing(s, c.jobs[move.w], s.phases[move.w].row) && Terminal(s.rows[a]);
      FinishEnds(s.rows[a], c.jobs[move.w].outcome);
      RowDecides(s.rows, c.m, a, s.phases[move.w].row);
    }
  }

  /** Some download job looks and commits what it saw. */
  ghost predicate JobCompletes(moves: seq<Move>) {
    exists i :: 0 <= i < |moves| && moves[i].LookLoader? && CommitsNext(Loader(moves[i].l), moves[i + 1..])
  }

  /** The first move of the run is that look, or it comes later. */
  lemma CompletesLater(moves: seq<Move>)
    requires JobCompletes(moves) && OnlyEnds(moves)
    ensures (moves[0].LookLoader? && CommitsNext(Loader(moves[0].l), moves[1..])) || JobCompletes(moves[1..])
    ensures (moves[0].Save? ==> Ends(moves[0].result)) && OnlyEnds(moves[1..])
  {
    var i :| 0 <= i < |moves| && moves[i].LookLoader? && CommitsNext(Loader(moves[i].l), moves[i + 1..]);
    var rest := moves[1..];
    if i > 0 { assert rest[i - 1] == moves[i] && rest[i..] == moves[i + 1..]; }
    assert forall k :: 0 <= k < |rest| ==> rest[k] == moves[k + 1];
  }

  /** Whatever else happens meanwhile: once everything is finished, and as long as no save reopens an attachment, every
      download job that looks and commits asks. */
  lemma {:induction false} LaterJobRepairs(s: State, c: Setting, moves: seq<Move>)
    requires Inv(s, c) && ReadyForAnalysis(s.rows, c.m) && Plays(s, c, moves) && OnlyEnds(moves) && JobCompletes(moves)
    ensures AllHits(After(s, c, moves)) > AllHits(s)
    decreases |moves|
  {
    CompletesLater(moves);
    if JobCompletes(moves[1..]) {
      MoveKeeps(s, c, moves[0]);
      ReadyStays(s, c, moves[0]);
      MoveAsks(s, c, moves[0]);
      LaterJobRepairs(Do(s, c, moves[0]), c, moves[1..]);
    } else {
      AskedFrom(s, c, moves);
    }
  }

  // ---------------------------------------------------------------- asking once

  /** No other job has finished the attachment that a save writes. */
  predicate FreshSave(s: State, move: Move) {
    move.Save? && move.a in s.rows ==> s.rows[move.a].download in {DownloadPending, Downloading}
  }

  ghost predicate FreshlySaved(s: State, c: Setting, moves: seq<Move>)
    requires Plays(s, c, moves)
    decreases |moves|
  {
    moves == [] || (FreshSave(s, moves[0]) && FreshlySaved(Do(s, c, moves[0]), c, moves[1..]))
  }

  /** Rows agree, and the workers have asked once at most, last of all, when everything was finished. */
  ghost predicate AskedOnce(s: State, c: Setting) {
    && (forall w :: w in c.jobs ==> Agrees(s, c.jobs[w]))
    && Hits(s.extracted) <= 1
    && (Hits(s.extracted) == 1 ==> s.extracted[|s.extracted| - 1] && ReadyForAnalysis(s.rows, c.m))
  }

  /** While a transaction is open its committed row is unfinished. */
  lemma WriterIsOpen(s: State, c: Setting, w: Worker)
    requires Inv(s, c) && AskedOnce(s, c) && w in c.jobs && !s.phases[w].Idle?
    ensures !Terminal(s.rows[c.jobs[w].attachment]) && !ReadyForAnalysis(s.rows, c.m)
  {
    assert Writing(s, c.jobs[w], s.phases[w].row) && Agrees(s, c.jobs[w]);
    var a := c.jobs[w].attachment;
    RowDecides(s.rows, c.m, a, s.rows[a]);
    assert s.rows[a := s.rows[a]] == s.rows;
  }

  /** Whose rows stay agrees as before; so does who has no extraction row. */
  lemma StaysAgreed(s: State, c: Setting, t: State, a: AttachmentId)
    requires forall w :: w in c.jobs ==> Agrees(s, c.jobs[w])
    requires a in t.rows && t.rows == s.rows[a := t.rows[a]] && t.extractions == s.extractions
    requires forall w :: w in c.jobs && c.jobs[w].attachment == a ==> c.jobs[w].extraction !in s.extractions
    ensures forall w :: w in c.jobs ==> Agrees(t, c.jobs[w])
  {
    forall w | w in c.jobs ensures Agrees(t, c.jobs[w]) {
      assert Agrees(s, c.jobs[w]);
    }
  }

  lemma RowAgrees(s: State, c: Setting, move: Move)
    requires Inv(s, c) && (forall w :: w in c.jobs ==> Agrees(s, c.jobs[w])) && Can(s, c, move) && (move.Claim? || move.Commit?)
    ensures forall w :: w in c.jobs ==> Agrees(Do(s, c, move), c.jobs[w])
  {
    var t, a := Do(s, c, move), c.jobs[move.w].attachment;
    if move.Commit? {
      assert Writing(s, c.jobs[move.w], s.phases[move.w].row);
      FinishEnds(s.rows[a], c.jobs[move.w].outcome);
    }
    forall w | w in c.jobs ensures Agrees(t, c.jobs[w]) {
      assert Agrees(s, c.jobs[w]);
    }
  }

  lemma MoveAgrees(s: State, c: Setting, move: Move)
    requires Inv(s, c) && (forall w :: w in c.jobs ==> Agrees(s, c.jobs[w])) && Can(s, c, move) && FreshSave(s, move)
    ensures forall w :: w in c.jobs ==> Agrees(Do(s, c, move), c.jobs[w])
  {
    var t := Do(s, c, move);
    if move.Claim? || move.Commit? {
      RowAgrees(s, c, move);
    } else if move.Save? {
      StaysAgreed(s, c, t, move.a);
    } else {
      assert t.rows == s.rows && t.extractions == s.extractions;
      forall w | w in c.jobs ensures Agrees(t, c.jobs[w]) { assert Agrees(s, c.jobs[w]); }
    }
  }

  lemma CommitAsksOnce(s: State, c: Setting, w: Worker)
    requires Inv(s, c) && Right(s, c) && AskedOnce(s, c) && Can(s, c, Commit(w))
    ensures AskedOnce(Do(s, c, Commit(w)), c)
  {
    MoveAgrees(s, c, Commit(w));
    WriterIsOpen(s, c, w);
    HitsGrow(s.extracted, s.phases[w].ready);
    assert s.phases[w].ready == SawDone(s, w);
  }

  lemma MoveAsksOnce(s: State, c: Setting, move: Move)
    requires Inv(s, c) && Right(s, c) && AskedOnce(s, c) && Can(s, c, move) && FreshSave(s, move) && !move.Commit?
    ensures AskedOnce(Do(s, c, move), c)
  {
    MoveAgrees(s, c, move);
    assert Do(s, c, move).extracted == s.extracted;
    if Hits(s.extracted) == 1 {
      if move.Save? { SavesOpen(s, c, move); }
      ReadyStays(s, c, move);
    }
  }

  /** A fresh save is of an attachment that is open, so nobody has concluded. */
  lemma SavesOpen(s: State, c: Setting, move: Move)
    requires Inv(s, c) && Can(s, c, move) && move.Save? && FreshSave(s, move)
    ensures !ReadyForAnalysis(s.rows, c.m)
  {
    RowDecides(s.rows, c.m, move.a, s.rows[move.a]);
    assert s.rows[move.a := s.rows[move.a]] == s.rows;
  }

  /** Jobs that do not save over each other are safe. */
  lemma FreshIsSafe(s: State, c: Setting, move: Move)
    requires Inv(s, c) && Right(s, c) && Can(s, c, move) && FreshSave(s, move)
    ensures SafeSave(s, c, move)
  {
    if move.Save? {
      SavesOpen(s, c, move);
      forall w | w in c.jobs && !s.phases[w].Idle? ensures !ReadyForAnalysis(View(s, c.jobs[w], s.phases[w].row), c.m) {
        SaveBeside(s, c, move, w);
        assert View(s, c.jobs[w], s.phases[w].row)[move.a] == s.rows[move.a];
      }
    }
  }

  lemma {:induction false} AskedOnceHolds(s: State, c: Setting, moves: seq<Move>)
    requires Inv(s, c) && Right(s, c) && AskedOnce(s, c) && Plays(s, c, moves) && FreshlySaved(s, c, moves)
    ensures AskedOnce(After(s, c, moves), c) && SafelySaved(s, c, moves)
    decreases |moves|
  {
    if moves != [] {
      MoveKeeps(s, c, moves[0]);
      FreshIsSafe(s, c, moves[0]);
      MoveIsRight(s, c, moves[0]);
      if moves[0].Commit? { CommitAsksOnce(s, c, moves[0].w); } else { MoveAsksOnce(s, c, moves[0]); }
      AskedOnceHolds(Do(s, c, moves[0]), c, moves[1..]);
    }
  }

  /** Where no two jobs save over each other, every save is safe and the extraction workers ask once at most. */
  lemma WorkersAskOnce(s: State, c: Setting, moves: seq<Move>)
    requires Starts(s, c) && Plays(s, c, moves) && FreshlySaved(s, c, moves)
    ensures SafelySaved(s, c, moves) && Hits(After(s, c, moves).extracted) <= 1
  {
    AskedOnceHolds(s, c, moves);
  }

  lemma {:induction false} NoLoaderMoves(s: State, c: Setting, moves: seq<Move>)
    requires Plays(s, c, moves) && s.loaders == map[]
    ensures After(s, c, moves).loaders == map[] && After(s, c, moves).loaded == s.loaded && FreshlySaved(s, c, moves)
    decreases |moves|
  {
    if moves != [] {
      NoLoaderMoves(Do(s, c, moves[0]), c, moves[1..]);
    }
  }

  /** Without download jobs, no lost and no double wakeup: whatever the interleaving of claims, writes, locks, reads,
      commits, aborts and repeated deliveries, no commit has asked as long as some attachment is unfinished,
      and once all are finished exactly one has: the last. */
  lemma ExactlyOneWakeup(s: State, c: Setting, moves: seq<Move>)
    requires Starts(s, c) && s.loaders == map[] && Plays(s, c, moves)
    ensures var t := After(s, c, moves);
            && Hits(t.extracted) == (if ReadyForAnalysis(t.rows, c.m) then 1 else 0)
            && (ReadyForAnalysis(t.rows, c.m) ==> t.extracted != [] && t.extracted[|t.extracted| - 1])
  {
    NoLoaderMoves(s, c, moves);
    AskedOnceHolds(s, c, moves);
    NotMissedHolds(s, c, moves);
  }

  // ---------------------------------------------------------------- no deadlock

  /** While a job's extraction is open, some worker or download job can go on without aborting or dying. */
  lemma SomeoneCanMove(s: State, c: Setting, w: Worker) returns (move: Move)
    requires Inv(s, c) && w in c.jobs && c.jobs[w].extraction in s.extractions && s.extractions[c.jobs[w].extraction] == Extracting
    ensures Can(s, c, move) && !move.Abort? && !move.Die? && !move.Deliver?
  {
    if s.lock.Some? {
      match s.lock.value
      case Extractor(v) => move := if s.phases[v].Locked? then Look(v) else Commit(v);
      case Loader(l) => move := if s.loaders[l].Asks? then LookLoader(l) else CommitLoader(l);
    } else if exists v :: v in c.jobs && c.jobs[v].attachment == c.jobs[w].attachment && !s.phases[v].Idle? {
      var v :| v in c.jobs && c.jobs[v].attachment == c.jobs[w].attachment && !s.phases[v].Idle?;
      assert s.lock != Some(Extractor(v));
      move := TakeLock(v);
    } else {
      move := Begin(w);
    }
  }
}
