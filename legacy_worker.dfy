// The download job of the first generation (manager/worker.go; manager.go
// holds a copy of the same two functions). The url is locked as
// processing, downloaded while its log lines are stored, uploaded, and
// unlocked as success or failure.
//
// As written, nothing recovers a panic of the downloader: the panic leaves
// ProcessURL between the lock and the unlock, so the row stays
// "processing", which no later lock or unlock accepts. The test of that case
// expects the row unlocked as a failure carrying the panic's text and the
// panic raised again, which is what the api generation's DownloadURL does.
// ProcessURLAsWritten models the code; ProcessURL adds the recover.

module LegacyWorker {
  import opened Common
  import opened UrlModel
  import opened UrlTables
  import opened UrlStore
  import opened LegacyStore
  import opened DownloadEvents
  import opened Processor
  import opened ManagerServer
  import opened ManagerWorker

  /** What the downloader does when called: it streams events, or it
    * panics before streaming any. */
  datatype Stream = Streamed(events: seq<Event>) | StreamPanicked(msg: string)

  /** How processURL ends: the uploaded file's base name or an error, or
    * the downloader's panic. */
  datatype Processed = Processed(file: Result<string>) | ProcessPanicked(msg: string)

  function ProcessedOf(s: Stream, upload: string -> Result<string>, base: string -> string): (p: Processed)
    ensures s.StreamPanicked? <==> p.ProcessPanicked?
  {
    match s
    case Streamed(evs) => Processed(Outcome(FoldEvents(evs), upload, base))
    case StreamPanicked(m) => ProcessPanicked(m)
  }

  /** The same outcome in the terms of the api generation's downloader. */
  function AsDownload(p: Processed): (d: Download)
    ensures d.Downloaded? <==> p.Processed? && p.file.Ok?
  {
    match p
    case Processed(Ok(file)) => Downloaded(file)
    case Processed(Err(e)) => DownloadFailed(e)
    case ProcessPanicked(m) => DownloadPanicked(m)
  }

  /** The tables once the stream is drained: its log lines appended to the
    * url, unless CreateLog fails or the downloader panicked. */
  function Logged(t: Tables, id: int, s: Stream, faults: map<Stmt, Error>): Tables
  {
    if s.StreamPanicked? || AppendLogStmt in faults then t else AppendAll(t, id, LogLines(s.events))
  }

  /** The error UnlockURL returns. */
  function UnlockError(t: Tables, u: Url, faults: map<Stmt, Error>): Option<Error>
  {
    if UnlockUrlStmt in faults then Some(faults[UnlockUrlStmt])
    else if Unlock(t, u).Err? then Some(Unlock(t, u).error)
    else None
  }

  class Worker {
    const store: LegacyStore.Store

    constructor (store: LegacyStore.Store)
      ensures this.store == store
    {
      this.store := store;
    }

    /** processURL: CreateLog's result is dropped (it is ErrNoRows even when
      * the line was stored); a failed download skips the upload. */
    method ProcessDownload(url: Url, download: string -> Stream, upload: string -> Result<string>, base: string -> string)
      returns (p: Processed)
      requires store.Valid()
      modifies store
      ensures store.Valid() && store.faults == old(store.faults)
      ensures store.tables == Logged(old(store.tables), url.id, download(url.url), store.faults)
      ensures p == ProcessedOf(download(url.url), upload, base)
    {
      var s := download(url.url);
      if s.StreamPanicked? {
        return ProcessPanicked(s.msg);
      }
      var stream := s.events;
      var path := "";
      var err: Option<Error> := None;
      var i := 0;
      while i < |stream|
        invariant 0 <= i <= |stream|
        invariant store.Valid() && store.faults == old(store.faults)
        invariant FoldEvents(stream[..i]) == Fold(path, err)
        invariant AppendLogStmt in store.faults ==> store.tables == old(store.tables)
        invariant AppendLogStmt !in store.faults ==> store.tables == AppendAll(old(store.tables), url.id, LogLines(stream[..i]))
      {
        assert stream[..i + 1][..i] == stream[..i];
        ghost var lines := LogLines(stream[..i]);
        match stream[i] {
          case LogEvent(line) =>
            var _ := store.CreateLog(url.id, line);
            assert LogLines(stream[..i + 1]) == lines + [line];
            AppendAllSnoc(old(store.tables), url.id, lines, line);
          case FailureEvent(e) =>
            err := Some(e);
            assert LogLines(stream[..i + 1]) == lines;
          case SuccessEvent(path') =>
            path := path';
            assert LogLines(stream[..i + 1]) == lines;
        }
        i := i + 1;
      }
      assert stream[..i] == stream;
      if err.Some? {
        return Processed(Err(err.value));
      }
      var uploaded := upload(path);
      if uploaded.Err? {
        return Processed(Err(uploaded.error));
      }
      p := Processed(Ok(base(uploaded.value)));
    }

    /** ProcessURL as written: a panic of the downloader escapes with the
      * url still locked as processing. */
    method ProcessURLAsWritten(e: UrlEvent, download: string -> Stream, upload: string -> Result<string>, base: string -> string)
      returns (c: Completion)
      requires store.Valid()
      modifies store
      ensures store.Valid() && store.faults == old(store.faults)
      ensures LockUrlStmt in store.faults ==>
        c == Return(Some(store.faults[LockUrlStmt])) && store.tables == old(store.tables)
      ensures LockUrlStmt !in store.faults && Lock(old(store.tables), NewUrl(e.id, "", "processing")).Err? ==>
        c == Return(Some(ErrNoRows)) && store.tables == old(store.tables)
      ensures LockUrlStmt !in store.faults && Lock(old(store.tables), NewUrl(e.id, "", "processing")).Ok? ==>
        (var (t1, locked) := Lock(old(store.tables), NewUrl(e.id, "", "processing")).value;
         var s := download(locked.url);
         var p := ProcessedOf(s, upload, base);
         var t2 := Logged(t1, e.id, s, store.faults);
         var final := Finished(locked, AsDownload(p));
         (p.ProcessPanicked? ==> c == Panic(p.msg) && store.tables == t1)
         && (p.Processed? && p.file.Err? ==> c == Return(Some(p.file.error)) && store.tables == AfterUnlock(t2, final, store.faults))
         && (p.Processed? && p.file.Ok? ==> c == Return(UnlockError(t2, final, store.faults)) && store.tables == AfterUnlock(t2, final, store.faults)))
    {
      var url := NewUrl(e.id, "", "processing");
      var locked := store.LockURL(url);
      if locked.Err? {
        return Return(Some(locked.error));
      }
      ghost var t1 := store.tables;
      url := locked.value;
      var p := ProcessDownload(url, download, upload, base);
      if p.ProcessPanicked? {
        // Nothing recovers: the panic leaves ProcessURL here.
        return Panic(p.msg);
      }
      ghost var t2 := store.tables;
      if p.file.Err? {
        url := url.(error := NullString(ErrorText(p.file.error), true), status := "failure");
        assert url == Finished(locked.value, AsDownload(p));
        var _ := store.UnlockURL(url);
        return Return(Some(p.file.error));
      }
      url := url.(file := NullString(p.file.value, true), status := "success");
      assert url == Finished(locked.value, AsDownload(p));
      var unlocked := store.UnlockURL(url);
      assert store.tables == AfterUnlock(t2, url, store.faults);
      c := Return(if unlocked.Err? then Some(unlocked.error) else None);
    }

    /** ProcessURL with the recover its test expects: a panic is recorded as
      * a failure with the panic's text, the url is unlocked, and the panic
      * is raised again. */
    method ProcessURL(e: UrlEvent, download: string -> Stream, upload: string -> Result<string>, base: string -> string)
      returns (c: Completion)
      requires store.Valid()
      modifies store
      ensures store.Valid() && store.faults == old(store.faults)
      ensures LockUrlStmt in store.faults ==>
        c == Return(Some(store.faults[LockUrlStmt])) && store.tables == old(store.tables)
      ensures LockUrlStmt !in store.faults && Lock(old(store.tables), NewUrl(e.id, "", "processing")).Err? ==>
        c == Return(Some(ErrNoRows)) && store.tables == old(store.tables)
      ensures LockUrlStmt !in store.faults && Lock(old(store.tables), NewUrl(e.id, "", "processing")).Ok? ==>
        (var (t1, locked) := Lock(old(store.tables), NewUrl(e.id, "", "processing")).value;
         var s := download(locked.url);
         var p := ProcessedOf(s, upload, base);
         var t2 := Logged(t1, e.id, s, store.faults);
         var final := Finished(locked, AsDownload(p));
         store.tables == AfterUnlock(t2, final, store.faults)
         && (p.ProcessPanicked? ==> c == Panic(p.msg))
         && (p.Processed? && p.file.Err? ==> c == Return(Some(p.file.error)))
         && (p.Processed? && p.file.Ok? ==> c == Return(UnlockError(t2, final, store.faults))))
    {
      var url := NewUrl(e.id, "", "processing");
      var locked := store.LockURL(url);
      if locked.Err? {
        return Return(Some(locked.error));
      }
      url := locked.value;
      var p := ProcessDownload(url, download, upload, base);
      ghost var t2 := store.tables;
      var perr: Option<Error> := None;
      if p.ProcessPanicked? {
        perr := Some(Failure(p.msg));
      } else if p.file.Err? {
        perr := Some(p.file.error);
      }
      if perr.Some? {
        url := url.(error := NullString(ErrorText(perr.value), true), status := "failure");
      } else {
        url := url.(file := NullString(p.file.value, true), status := "success");
      }
      assert url == Finished(locked.value, AsDownload(p));
      var unlocked := store.UnlockURL(url);
      assert store.tables == AfterUnlock(t2, url, store.faults);
      if p.ProcessPanicked? {
        return Panic(p.msg);
      }
      if perr.Some? {
        return Return(perr);
      }
      c := Return(if unlocked.Err? then Some(unlocked.error) else None);
    }
  }

  /** As written, a panicking download strands a pending url: after the
    * panic it is "processing", and no lock will take it again. */
  lemma PanicStrandsUrl(t: Tables, id: int)
    requires UrlTables.Valid(t) && StatusOf(t, id) == Some("pending")
    ensures Lock(t, NewUrl(id, "", "processing")).Ok?
    ensures var t1 := Lock(t, NewUrl(id, "", "processing")).value.0;
      StatusOf(t1, id) == Some("processing")
      && forall u: Url :: u.id == id ==> Lock(t1, u) == Err(ErrNoRows)
  {
    var k := Find(t.rows, HasId(id)).value;
    FoundIsOnly(t, k, id);
    var t1 := Lock(t, NewUrl(id, "", "processing")).value.0;
    assert t1.rows[k].url.status == "processing";
    TablesIdsKept(t, t1);
    StatusAt(t1, k, id);
    forall u: Url | u.id == id
      ensures Lock(t1, u) == Err(ErrNoRows)
    {
      LockExclusive(t, NewUrl(id, "", "processing"), u);
    }
  }

  /** With the recover, the same download leaves the url as a failure that
    * carries the panic's text. */
  lemma PanicSettles(t: Tables, id: int, msg: string, faults: map<Stmt, Error>)
    requires UrlTables.Valid(t) && StatusOf(t, id) == Some("pending") && UnlockUrlStmt !in faults
    ensures Lock(t, NewUrl(id, "", "processing")).Ok?
    ensures var (t1, locked) := Lock(t, NewUrl(id, "", "processing")).value;
      var final := Finished(locked, DownloadPanicked(msg));
      StatusOf(AfterUnlock(t1, final, faults), id) == Some("failure")
      && final.error == NullString(msg, true)
  {
    OutcomeSettles(t, UrlEvent(id, ""), DownloadPanicked(msg), faults);
  }
}
