/** The workers that can complete a message's attachments, as one transition system: extraction workers, which finish
    their row and ask in one transaction, and download jobs, which commit each row on its own and ask at the end. */
module AttachmentWork {
  import opened Prelude
  import opened ExtractionBarrier

  type Worker = nat

  /** One delivery of an extraction job. Deliveries may be repeated: several workers, one attachment. */
  datatype Job = Job(extraction: ExtractionId, attachment: AttachmentId, outcome: Outcome)

  /** Where a worker's transaction stands: it wrote its rows, it holds the message lock, it looked. */
  datatype Phase =
    | Idle
    | Wrote(row: Attachment)
    | Locked(row: Attachment)
    | Looked(row: Attachment, ready: bool)

  /** Where a download job stands: it has attachments left, each with the row as the job knows it, it holds the lock,
      it looked, or it died. */
  datatype Loading = NotLoading | Loads(left: map<AttachmentId, Attachment>) | Asks | Answers(ready: bool) | Died

  datatype Holder = Extractor(worker: Worker) | Loader(loader: Worker)

  datatype State = State(
    rows: map<AttachmentId, Attachment>,   // committed rows
    extractions: map<ExtractionId, Extraction>,
    phases: map<Worker, Phase>,
    loaders: map<Worker, Loading>,
    lock: Option<Holder>,                  // the message's transaction lock
    outbox: seq<AnalysisEvent>,
    extracted: seq<bool>,                  // per commit of a worker: did it ask
    loaded: seq<bool>)                     // per commit of a download job: did it ask

  /** What a download job stores about one attachment; it writes its whole row, over whatever is committed. */
  datatype Saved = StartsLoading | Stored | NotStored | OnlyMetadata(code: string)

  datatype Move =
    | Claim(w: Worker) | Begin(w: Worker) | TakeLock(w: Worker) | Look(w: Worker) | Commit(w: Worker) | Abort(w: Worker)
    | Load(l: Worker) | Save(l: Worker, a: AttachmentId, result: Saved)
    | LockLoader(l: Worker) | LookLoader(l: Worker) | CommitLoader(l: Worker) | Die(l: Worker)
    | Deliver(event: nat)

  /** What stays fixed: the deliveries, the message, and what the gate reads about messages. */
  datatype Setting = Setting(jobs: map<Worker, Job>, m: MessageId, messages: map<MessageId, Message>)

  function SavedRow(row: Attachment, result: Saved): Attachment {
    match result
    case StartsLoading => row.(download := Downloading)
    case Stored => row.(download := Downloaded, extraction := ExtractionPending)
    case NotStored => row.(download := DownloadFailed)
    case OnlyMetadata(code) => row.(download := MetadataOnly, extraction := BodyUnavailable, errorCode := Some(code))
  }

  /** The rows a transaction reads: what is committed, with its own write on top. */
  function View(s: State, job: Job, row: Attachment): map<AttachmentId, Attachment> {
    s.rows[job.attachment := row]
  }

  /** The gate is asked for the message. */
  function Asked(c: Setting, outbox: seq<AnalysisEvent>): seq<AnalysisEvent> {
    Requested(c.messages, outbox, c.m, c.m in c.messages && c.messages[c.m].version > 1)
  }

  /** A row is locked from the moment a transaction wrote it until it ends. */
  predicate RowFree(s: State, jobs: map<Worker, Job>, a: AttachmentId) {
    forall v :: v in jobs && v in s.phases && jobs[v].attachment == a ==> s.phases[v].Idle?
  }

  /** The rows a download job starts from: read without a lock, so another job may have read them too. */
  function Undownloaded(s: State, m: MessageId): map<AttachmentId, Attachment> {
    map a | a in s.rows && s.rows[a].message == m && s.rows[a].download == DownloadPending :: s.rows[a]
  }

  predicate WorkerCan(s: State, c: Setting, move: Move, w: Worker) {
    && w in c.jobs && w in s.phases
    && var job, phase := c.jobs[w], s.phases[w];
       match move
       case Claim(_) =>
         phase.Idle? && job.extraction !in s.extractions
         && job.attachment in s.rows && s.rows[job.attachment].download == Downloaded
       case Begin(_) =>
         phase.Idle? && RowFree(s, c.jobs, job.attachment) && job.attachment in s.rows
         && job.extraction in s.extractions && s.extractions[job.extraction] == Extracting
       case TakeLock(_) => phase.Wrote? && s.lock == None
       case Look(_) => phase.Locked?
       case Commit(_) => phase.Looked?
       case Abort(_) => !phase.Idle?
       case _ => false
  }

  predicate LoaderCan(s: State, c: Setting, move: Move, l: Worker) {
    && l in s.loaders
    && var p := s.loaders[l];
       match move
       case Load(_) => p.NotLoading?
       case Save(_, a, _) => p.Loads? && a in p.left && a in s.rows && RowFree(s, c.jobs, a)
       case LockLoader(_) => p.Loads? && p.left == map[] && s.lock == None
       case LookLoader(_) => p.Asks?
       case CommitLoader(_) => p.Answers?
       case Die(_) => !p.NotLoading?
       case _ => false
  }

  predicate Can(s: State, c: Setting, move: Move) {
    match move
    case Claim(w) => WorkerCan(s, c, move, w)
    case Begin(w) => WorkerCan(s, c, move, w)
    case TakeLock(w) => WorkerCan(s, c, move, w)
    case Look(w) => WorkerCan(s, c, move, w)
    case Commit(w) => WorkerCan(s, c, move, w)
    case Abort(w) => WorkerCan(s, c, move, w)
    case Deliver(event) => event < |s.outbox|
    case _ => LoaderCan(s, c, move, move.l)
  }

  function ClaimRow(row: Attachment): Attachment {
    row.(extraction := Extracting, errorCode := None)
  }

  /** A claim reopens the row, and only its extraction; an earlier error is forgotten. */
  lemma ClaimReopens(row: Attachment)
    ensures ClaimRow(row) == Attachment(row.message, row.download, Extracting, None)
    ensures row.download == Downloaded ==> !Terminal(ClaimRow(row))
  {
  }

  function Do(s: State, c: Setting, move: Move): State
    requires Can(s, c, move)
  {
    match move
    case Claim(w) =>
      var job := c.jobs[w];
      s.(rows := s.rows[job.attachment := ClaimRow(s.rows[job.attachment])],
         extractions := s.extractions[job.extraction := Extracting])
    case Begin(w) => s.(phases := s.phases[w := Wrote(Finish(s.rows[c.jobs[w].attachment], c.jobs[w].outcome))])
    case TakeLock(w) => s.(phases := s.phases[w := Locked(s.phases[w].row)], lock := Some(Extractor(w)))
    case Look(w) =>
      var row := s.phases[w].row;
      s.(phases := s.phases[w := Looked(row, ReadyForAnalysis(View(s, c.jobs[w], row), c.m))])
    case Commit(w) =>
      var Looked(row, ready) := s.phases[w];
      s.(rows := View(s, c.jobs[w], row),
         extractions := s.extractions[c.jobs[w].extraction := row.extraction],
         phases := s.phases[w := Idle],
         lock := None,
         outbox := if ready then Asked(c, s.outbox) else s.outbox,
         extracted := s.extracted + [ready])
    case Abort(w) =>
      s.(phases := s.phases[w := Idle], lock := if s.lock == Some(Extractor(w)) then None else s.lock)
    case Load(l) => s.(loaders := s.loaders[l := Loads(Undownloaded(s, c.m))])
    case Save(l, a, result) =>
      var left := s.loaders[l].left;
      var row := SavedRow(left[a], result);
      s.(rows := s.rows[a := row],
         loaders := s.loaders[l := Loads(if result.StartsLoading? then left[a := row] else left - {a})])
    case LockLoader(l) => s.(loaders := s.loaders[l := Asks], lock := Some(Loader(l)))
    case LookLoader(l) => s.(loaders := s.loaders[l := Answers(ReadyForAnalysis(s.rows, c.m))])
    case CommitLoader(l) =>
      var ready := s.loaders[l].ready;
      s.(loaders := s.loaders[l := NotLoading],
         lock := None,
         outbox := if ready then Asked(c, s.outbox) else s.outbox,
         loaded := s.loaded + [ready])
    case Die(l) => s.(loaders := s.loaders[l := Died], lock := if s.lock == Some(Loader(l)) then None else s.lock)
    case Deliver(event) => s.(outbox := s.outbox[event := s.outbox[event].(pending := false)])
  }

  ghost predicate Plays(s: State, c: Setting, moves: seq<Move>)
    decreases |moves|
  {
    moves == [] || (Can(s, c, moves[0]) && Plays(Do(s, c, moves[0]), c, moves[1..]))
  }

  ghost function After(s: State, c: Setting, moves: seq<Move>): State
    requires Plays(s, c, moves)
    decreases |moves|
  {
    if moves == [] then s else After(Do(s, c, moves[0]), c, moves[1..])
  }

  function Hits(log: seq<bool>): nat {
    if log == [] then 0 else Hits(log[..|log| - 1]) + (if log[|log| - 1] then 1 else 0)
  }

  /** The number of answers yes so far. */
  function AllHits(s: State): nat {
    Hits(s.extracted) + Hits(s.loaded)
  }

  lemma HitsGrow(log: seq<bool>, ready: bool)
    ensures Hits(log + [ready]) == Hits(log) + (if ready then 1 else 0)
  {
    assert (log + [ready])[..|log|] == log;
  }

  /** The move commits an answer yes. */
  predicate SaysYes(s: State, move: Move) {
    || (move.Commit? && move.w in s.phases && s.phases[move.w].Looked? && s.phases[move.w].ready)
    || (move.CommitLoader? && move.l in s.loaders && s.loaders[move.l].Answers? && s.loaders[move.l].ready)
  }

  /** Exactly such a move adds a hit, and only it asks the gate. */
  lemma MoveAsks(s: State, c: Setting, move: Move)
    requires Can(s, c, move)
    ensures AllHits(Do(s, c, move)) == AllHits(s) + (if SaysYes(s, move) then 1 else 0)
    ensures !move.Deliver? ==> Do(s, c, move).outbox == if SaysYes(s, move) then Asked(c, s.outbox) else s.outbox
  {
    if move.Commit? { HitsGrow(s.extracted, s.phases[move.w].ready); }
    if move.CommitLoader? { HitsGrow(s.loaded, s.loaders[move.l].ready); }
  }

  lemma {:induction false} HitsOnlyGrow(s: State, c: Setting, moves: seq<Move>)
    requires Plays(s, c, moves)
    ensures AllHits(s) <= AllHits(After(s, c, moves))
    decreases |moves|
  {
    if moves != [] {
      MoveAsks(s, c, moves[0]);
      HitsOnlyGrow(Do(s, c, moves[0]), c, moves[1..]);
    }
  }

  lemma NextMove(s: State, c: Setting, moves: seq<Move>, next: State)
    requires moves != [] && Can(s, c, moves[0]) && next == Do(s, c, moves[0]) && Plays(next, c, moves[1..])
    ensures Plays(s, c, moves) && After(s, c, moves) == After(next, c, moves[1..])
  {
  }

  lemma {:induction false} AfterAppend(s: State, c: Setting, first: seq<Move>, second: seq<Move>)
    requires Plays(s, c, first) && Plays(After(s, c, first), c, second)
    ensures Plays(s, c, first + second) && After(s, c, first + second) == After(After(s, c, first), c, second)
    decreases |first|
  {
    if first == [] {
      assert first + second == second;
    } else {
      assert (first + second)[1..] == first[1..] + second;
      AfterAppend(Do(s, c, first[0]), c, first[1..], second);
    }
  }

  lemma OneMove(s: State, c: Setting, move: Move)
    requires Can(s, c, move)
    ensures Plays(s, c, [move]) && After(s, c, [move]) == Do(s, c, move)
  {
    var t := Do(s, c, move);
    assert [move][1..] == [] && Plays(t, c, []) && After(t, c, []) == t;
  }
}
