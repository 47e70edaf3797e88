/** One attachment and two download jobs: a lost wakeup, an early one, and two. */
module WakeupExamples {
  import opened Prelude
  import opened ExtractionBarrier
  import opened AttachmentWork
  import opened AnalysisWakeups

  /** One attachment of one message that may be analysed, nothing downloaded, and two download jobs. */
  const PLAIN := Setting(map[], 0, map[0 := Message(false, "analyze", 1)])

  function Row(download: Download): Attachment {
    Attachment(0, download, ExtractionNotRequested, None)
  }

  function Scene(download: Download, loaders: map<Worker, Loading>): State {
    State(map[0 := Row(download)], map[], map[], loaders, None, [], [], [])
  }

  const OPEN := Scene(DownloadPending, map[8 := NotLoading, 9 := NotLoading])

  lemma SceneStarts()
    ensures Starts(OPEN, PLAIN)
  {
    assert 0 in OPEN.rows && !Terminal(OPEN.rows[0]);
  }

  lemma SceneReady(s: State)
    requires s.rows == map[0 := Row(DownloadFailed)]
    ensures ReadyForAnalysis(s.rows, 0)
  {
    assert 0 in s.rows && s.rows[0].message == 0;
  }

  /** Job 9 reads the pending row, and fails to download it. */
  const FAILS := [Load(9), Save(9, 0, NotStored)]

  lemma SaveFails(s: State, other: Loading)
    requires s == Scene(DownloadPending, map[8 := other, 9 := Loads(map[0 := Row(DownloadPending)])])
    ensures var save := Save(9, 0, NotStored);
            Can(s, PLAIN, save) && Do(s, PLAIN, save) == Scene(DownloadFailed, map[8 := other, 9 := Loads(map[])])
  {
    assert map[0 := Row(DownloadPending)] - {0} == map[];
  }

  lemma JobFails(other: Loading)
    ensures var s := Scene(DownloadPending, map[8 := other, 9 := NotLoading]);
            && Plays(s, PLAIN, FAILS)
            && After(s, PLAIN, FAILS) == Scene(DownloadFailed, map[8 := other, 9 := Loads(map[])])
  {
    var s := Scene(DownloadPending, map[8 := other, 9 := NotLoading]);
    var s1 := Scene(DownloadPending, map[8 := other, 9 := Loads(map[0 := Row(DownloadPending)])]);
    assert Undownloaded(s, 0) == map[0 := Row(DownloadPending)];
    assert Do(s, PLAIN, Load(9)) == s1;
    SaveFails(s1, other);
    OneMove(s1, PLAIN, Save(9, 0, NotStored));
    assert FAILS[1..] == [Save(9, 0, NotStored)];
    NextMove(s, PLAIN, FAILS, s1);
  }

  /** A lost wakeup: the only download job dies between its last row and its question. */
  lemma LostWakeup()
    ensures Starts(OPEN, PLAIN) && Plays(OPEN, PLAIN, FAILS + [Die(9)])
    ensures var t := After(OPEN, PLAIN, FAILS + [Die(9)]);
            ReadyForAnalysis(t.rows, 0) && AllHits(t) == 0 && t.outbox == [] && t.lock == None
  {
    SceneStarts();
    JobFails(NotLoading);
    var s := Scene(DownloadFailed, map[8 := NotLoading, 9 := Loads(map[])]);
    OneMove(s, PLAIN, Die(9));
    AfterAppend(OPEN, PLAIN, FAILS, [Die(9)]);
    SceneReady(s);
  }

  lemma AskedOnEmpty()
    ensures Asked(PLAIN, []) == [AnalysisEvent(0, false, true)]
    ensures Asked(PLAIN, [AnalysisEvent(0, false, false)]) == [AnalysisEvent(0, false, false), AnalysisEvent(0, false, true)]
  {
  }

  /** Job 9 fails to download and asks, whatever job 8 is doing. */
  lemma JobFailsAndAsks(other: Loading)
    ensures var s, moves := Scene(DownloadPending, map[8 := other, 9 := NotLoading]), FAILS + JobMoves(9)[1..];
            && Plays(s, PLAIN, moves)
            && After(s, PLAIN, moves) == Scene(DownloadFailed, map[8 := other, 9 := NotLoading])
                                         .(outbox := [AnalysisEvent(0, false, true)], loaded := [true])
  {
    var s := Scene(DownloadPending, map[8 := other, 9 := NotLoading]);
    var t := Scene(DownloadFailed, map[8 := other, 9 := Loads(map[])]);
    JobFails(other);
    SceneReady(t);
    JobAsks(t, PLAIN, 9);
    AskedOnEmpty();
    assert t.loaders[9 := NotLoading] == map[8 := other, 9 := NotLoading];
    AfterAppend(s, PLAIN, FAILS, JobMoves(9)[1..]);
  }

  /** Two wakeups: a job asks, its event is delivered, and the job of a later event of the message, which finds nothing
      left to download, asks again. */
  lemma TwoWakeups()
    ensures var moves := FAILS + JobMoves(9)[1..] + [Deliver(0)] + JobMoves(8);
            && Starts(OPEN, PLAIN) && Plays(OPEN, PLAIN, moves)
            && After(OPEN, PLAIN, moves).outbox == [AnalysisEvent(0, false, false), AnalysisEvent(0, false, true)]
  {
    var first := FAILS + JobMoves(9)[1..];
    SceneStarts();
    JobFailsAndAsks(NotLoading);
    var s := After(OPEN, PLAIN, first);
    var t := s.(outbox := [AnalysisEvent(0, false, false)]);
    OneMove(s, PLAIN, Deliver(0));
    assert Do(s, PLAIN, Deliver(0)) == t;
    AfterAppend(OPEN, PLAIN, first, [Deliver(0)]);
    SceneReady(t);
    NewJobRepairs(t, PLAIN, 8);
    AskedOnEmpty();
    AfterAppend(OPEN, PLAIN, first + [Deliver(0)], JobMoves(8));
  }

  /** Job 8 read the same pending row before, and now starts to download it. */
  const REOPENS := Save(8, 0, StartsLoading)

  lemma SaveReopens(t: State)
    requires t.rows == map[0 := Row(DownloadFailed)] && AllHits(t) > 0
    requires 8 in t.loaders && t.loaders[8] == Loads(map[0 := Row(DownloadPending)])
    ensures Can(t, PLAIN, REOPENS) && !SafeSave(t, PLAIN, REOPENS)
    ensures var u := Do(t, PLAIN, REOPENS);
            u.outbox == t.outbox && AllHits(u) == AllHits(t) && !ReadyForAnalysis(u.rows, 0)
  {
    RowDecides(t.rows, 0, 0, Row(Downloading));
  }

  /** An early wakeup: two jobs read the same pending row, one fails to download it and asks, and the other sets it
      back to downloading. */
  lemma EarlyWakeup()
    ensures var moves := [Load(8)] + (FAILS + JobMoves(9)[1..]);
            && Starts(OPEN, PLAIN) && Plays(OPEN, PLAIN, moves) && Can(After(OPEN, PLAIN, moves), PLAIN, REOPENS)
            && !SafeSave(After(OPEN, PLAIN, moves), PLAIN, REOPENS)
            && var t := Do(After(OPEN, PLAIN, moves), PLAIN, REOPENS);
               AllHits(t) > 0 && t.outbox == [AnalysisEvent(0, false, true)] && !ReadyForAnalysis(t.rows, 0)
  {
    var other := Loads(map[0 := Row(DownloadPending)]);
    SceneStarts();
    LoadsFirst(other);
    JobFailsAndAsks(other);
    AfterAppend(OPEN, PLAIN, [Load(8)], FAILS + JobMoves(9)[1..]);
    HitsGrow([], true);
    SaveReopens(After(OPEN, PLAIN, [Load(8)] + (FAILS + JobMoves(9)[1..])));
  }

  lemma LoadsFirst(other: Loading)
    requires other == Loads(map[0 := Row(DownloadPending)])
    ensures Plays(OPEN, PLAIN, [Load(8)])
    ensures After(OPEN, PLAIN, [Load(8)]) == Scene(DownloadPending, map[8 := other, 9 := NotLoading])
  {
    assert Undownloaded(OPEN, 0) == map[0 := Row(DownloadPending)];
    OneMove(OPEN, PLAIN, Load(8));
  }
}
