// The download step of the api generation (api/processor/processor.go): it
// runs the downloader on a url, stores each log line as it streams by, and
// saves the downloaded file unless the download failed. The downloader's
// stream, the storage and filepath.Base are parameters.

module Processor {
  import opened Common
  import opened UrlModel
  import opened UrlTables
  import opened UrlStore
  import opened DownloadEvents

  /** The tables after `lines` were appended one by one to the url `id`. */
  function AppendAll(t: Tables, id: int, lines: seq<string>): Tables
  {
    if lines == [] then t
    else UpdateById(AppendAll(t, id, lines[..|lines| - 1]), id, AppendLogTo(lines[|lines| - 1]))
  }

  /** Appending lines one by one appends them all, in order, to that url's
    * logs and to nothing else. */
  lemma {:induction false} AppendAllAppends(t: Tables, id: int, lines: seq<string>)
    requires UrlTables.Valid(t)
    ensures var t' := AppendAll(t, id, lines);
      UrlTables.Valid(t') && |t'.rows| == |t.rows| && t'.videos == t.videos
      && forall i :: 0 <= i < |t.rows| ==>
           if t.rows[i].url.id == id
           then t'.rows[i] == t.rows[i].(url := t.rows[i].url.(logs := t.rows[i].url.logs + lines))
           else t'.rows[i] == t.rows[i]
  {
    if lines != [] {
      var init := lines[..|lines| - 1];
      var last := lines[|lines| - 1];
      AppendAllAppends(t, id, init);
      var t1 := AppendAll(t, id, init);
      AppendLogAppends(t1, id, last);
      forall i | 0 <= i < |t.rows| && t.rows[i].url.id == id
        ensures t.rows[i].url.logs + init + [last] == t.rows[i].url.logs + lines
      {
        assert init + [last] == lines;
      }
    }
  }

  lemma AppendAllSnoc(t: Tables, id: int, lines: seq<string>, line: string)
    ensures AppendAll(t, id, lines + [line]) == UpdateById(AppendAll(t, id, lines), id, AppendLogTo(line))
  {
    assert (lines + [line])[..|lines|] == lines;
  }

  /** What Process returns once the stream is drained: the error of the
    * download, else the save's error, else the base name of the saved
    * file. */
  function Outcome(f: Fold, save: string -> Result<string>, base: string -> string): (r: Result<string>)
    ensures f.err.Some? ==> r == Err(f.err.value)
    ensures f.err.None? && save(f.path).Err? ==> r == Err(save(f.path).error)
    ensures f.err.None? && save(f.path).Ok? ==> r == Ok(base(save(f.path).value))
  {
    if f.err.Some? then Err(f.err.value)
    else
      match save(f.path)
      case Err(e) => Err(e)
      case Ok(uploaded) => Ok(base(uploaded))
  }

  class Processor {
    const store: Store

    constructor (store: Store)
      ensures this.store == store
    {
      this.store := store;
    }

    /** Process: the stream is drained whatever it holds; an error of
      * AppendLog is dropped. */
    method Process(url: Url, download: string -> seq<Event>, save: string -> Result<string>, base: string -> string)
      returns (r: Result<string>)
      requires store.Valid()
      modifies store
      ensures store.Valid() && store.faults == old(store.faults) && store.tx == old(store.tx)
      ensures AppendLogStmt in store.faults ==> store.tables == old(store.tables)
      ensures AppendLogStmt !in store.faults ==> store.tables == AppendAll(old(store.tables), url.id, LogLines(download(url.url)))
      ensures r == Outcome(FoldEvents(download(url.url)), save, base)
    {
      var stream := download(url.url);
      var path := "";
      var err: Option<Error> := None;
      var i := 0;
      while i < |stream|
        invariant 0 <= i <= |stream|
        invariant store.Valid() && store.faults == old(store.faults) && store.tx == old(store.tx)
        invariant FoldEvents(stream[..i]) == Fold(path, err)
        invariant AppendLogStmt in store.faults ==> store.tables == old(store.tables)
        invariant AppendLogStmt !in store.faults ==> store.tables == AppendAll(old(store.tables), url.id, LogLines(stream[..i]))
      {
        assert stream[..i + 1][..i] == stream[..i];
        ghost var lines := LogLines(stream[..i]);
        match stream[i] {
          case LogEvent(line) =>
            var _ := store.AppendLog(url.id, line);
            assert LogLines(stream[..i + 1]) == lines + [line];
            AppendAllSnoc(old(store.tables), url.id, lines, line);
          case FailureEvent(e) =>
            err := Some(e);
            assert LogLines(stream[..i + 1]) == lines;
          case SuccessEvent(p) =>
            path := p;
            assert LogLines(stream[..i + 1]) == lines;
        }
        i := i + 1;
      }
      assert stream[..i] == stream;
      if err.Some? {
        return Err(err.value);
      }
      var uploaded := save(path);
      if uploaded.Err? {
        return Err(uploaded.error);
      }
      r := Ok(base(uploaded.value));
    }
  }

  /** A failed download is not saved: any failure in the stream makes
    * Process return the last failure's error. */
  lemma FailureNotSaved(evs: seq<Event>, i: nat, save: string -> Result<string>, base: string -> string)
    requires i < |evs| && evs[i].FailureEvent? && NoFailureFrom(evs, i + 1)
    ensures Outcome(FoldEvents(evs), save, base) == Err(evs[i].err)
  {
    FoldErrorIsLastFailure(evs, i);
  }

  /** A stream without a failure is saved from the last success's path. */
  lemma SuccessSaved(evs: seq<Event>, i: nat, save: string -> Result<string>, base: string -> string)
    requires NoFailureFrom(evs, 0)
    requires i < |evs| && evs[i].SuccessEvent? && NoSuccessFrom(evs, i + 1)
    ensures Outcome(FoldEvents(evs), save, base)
      == (match save(evs[i].path) case Err(e) => Err(e) case Ok(uploaded) => Ok(base(uploaded)))
  {
    FoldErrorNone(evs);
    FoldPathIsLastSuccess(evs, i);
  }
}
