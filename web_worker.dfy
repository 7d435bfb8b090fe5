// The first-generation worker (worker.go): a job taken from the database is
// downloaded with youtube-dl, through a tor proxy when it is a retry, its
// output is stored, and the files are uploaded. A country or copyright block
// inserts a retry row. Everything the job does outside this code is a
// parameter (the environment `Env`); what it does to the database, tor, the
// downloader and the object store is recorded, in order, as effects.

module WebWorker {
  import opened Common
  import opened Storage

  datatype Job = Job(id: int, url: string, retries: int)

  /** A started tor process: its SOCKS address, its GeoIP record as JSON (or
    * the marshalling error) and its log. */
  datatype Tor = Tor(listenAddr: string, geoip: Result<string>, log: string)

  /** youtube-dl's error; geoError wraps the error and keeps its text. */
  datatype DownloadError = Plain(e: Error) | Geo(e: Error)

  function DownloadErrorText(d: DownloadError): string
  {
    ErrorText(d.e)
  }

  /** The statements the worker runs. */
  datatype Stmt =
    | UpdateError(msg: string, id: int)
    | UpdateGeoip(geoip: string, id: int)
    | UpdateOutputErrorTorlog(output: string, msg: string, torlog: string, id: int)
    | UpdateOutputError(output: string, msg: string, id: int)
    | UpdateOutput(output: string, at: int, id: int)
    | UpdateUploadedAt(at: int, id: int)
    | InsertRetries(url: string, retries: int)

  /** What a job does, in order: statements in its transaction, a statement
    * on the database outside it, starting tor, running youtube-dl, an
    * upload, and the final commit. */
  datatype Effect =
    | Exec(stmt: Stmt)
    | DbQuery(stmt: Stmt)
    | StartTor
    | Run(args: seq<string>)
    | Upload(input: PutInput)
    | Commit

  /** The outside world of one job. `exec` is the error of a statement,
    * `run` the combined output and error of youtube-dl for an argv,
    * `matches` the regular-expression engine, `files` the temporary
    * directory's listing, `join` and `base` filepath.Join and filepath.Base,
    * `put` the upload's error; `now` and `uploadedAt` are the two clock
    * readings. */
  datatype Env = Env(
    tmpdir: Result<string>,
    tor: Result<Tor>,
    exec: Stmt -> Option<Error>,
    run: seq<string> -> (string, Option<Error>),
    matches: (string, string) -> bool,
    files: Result<seq<string>>,
    join: (string, string) -> string,
    base: string -> string,
    put: PutInput -> Option<Error>,
    bucket: string,
    now: int,
    uploadedAt: int)

  // ---- youtubeDL ----

  /** The argv: "-v", then "--proxy socks5://addr" when tor runs, then the
    * url. */
  function Args(url: string, tor: Option<Tor>): (args: seq<string>)
    ensures |args| == (if tor.Some? then 4 else 2)
    ensures args[0] == "-v" && args[|args| - 1] == url
    ensures tor.Some? ==> args[1] == "--proxy" && args[2] == "socks5://" + tor.value.listenAddr
  {
    ["-v"] + (if tor.Some? then ["--proxy", "socks5://" + tor.value.listenAddr] else []) + [url]
  }

  /** strings.Replace(output, "\r", "\r\n", -1). */
  function Crlf(s: string): (r: string)
    ensures |r| >= |s|
  {
    if s == [] then []
    else (if s[0] == '\r' then "\r\n" else [s[0]]) + Crlf(s[1..])
  }

  /** Its inverse: "\r\n" back to "\r". */
  function Uncrlf(t: string): (r: string)
    decreases |t|
  {
    if t == [] then []
    else if |t| >= 2 && t[0] == '\r' && t[1] == '\n' then "\r" + Uncrlf(t[2..])
    else [t[0]] + Uncrlf(t[1..])
  }

  /** The rewrite loses nothing: undoing it gives the raw output back. */
  lemma {:induction false} CrlfRoundTrip(s: string)
    ensures Uncrlf(Crlf(s)) == s
  {
    if s != [] {
      CrlfRoundTrip(s[1..]);
      var t := Crlf(s);
      if s[0] == '\r' {
        assert t == "\r\n" + Crlf(s[1..]);
        assert t[2..] == Crlf(s[1..]);
      } else {
        assert t == [s[0]] + Crlf(s[1..]);
        assert t[1..] == Crlf(s[1..]);
      }
      assert s == [s[0]] + s[1..];
    }
  }

  /** After the rewrite every carriage return is followed by a newline. */
  lemma {:induction false} CrlfTerminated(s: string)
    ensures forall i :: 0 <= i < |Crlf(s)| && Crlf(s)[i] == '\r' ==> i + 1 < |Crlf(s)| && Crlf(s)[i + 1] == '\n'
  {
    if s != [] {
      CrlfTerminated(s[1..]);
      var head: string := if s[0] == '\r' then "\r\n" else [s[0]];
      var rest := Crlf(s[1..]);
      assert Crlf(s) == head + rest;
      forall i | 0 <= i < |Crlf(s)| && Crlf(s)[i] == '\r'
        ensures i + 1 < |Crlf(s)| && Crlf(s)[i + 1] == '\n'
      {
        if i >= |head| {
          assert Crlf(s)[i] == rest[i - |head|];
          assert Crlf(s)[i + 1] == rest[i + 1 - |head|];
        }
      }
    }
  }

  const GeoErrorPatterns: seq<string> := [
    "ERROR: The uploader has not made this video available in your country\\.",
    "ERROR: .*: YouTube said: This video contains content from .*, who has blocked it on copyright grounds\\."
  ]

  /** looksLikeGeoError */
  predicate LooksLikeGeoError(output: string, matches: (string, string) -> bool)
  {
    AnyMatch(GeoErrorPatterns, output, matches)
  }

  /** youtubeDL: the output with carriage returns rewritten, and the error,
    * wrapped as geoError when the output shows a geographic block. */
  function YoutubeDL(url: string, tor: Option<Tor>, env: Env): (r: (string, Option<DownloadError>))
    ensures r.0 == Crlf(env.run(Args(url, tor)).0)
    ensures r.1.None? <==> env.run(Args(url, tor)).1.None?
  {
    var (raw, err) := env.run(Args(url, tor));
    var output := Crlf(raw);
    if err.None? then (output, None)
    else if LooksLikeGeoError(output, env.matches) then (output, Some(Geo(err.value)))
    else (output, Some(Plain(err.value)))
  }

  /** A failure is a geoError exactly when one of the two block messages
    * matches the rewritten output; the text is youtube-dl's either way. */
  lemma GeoErrorWhenBlocked(url: string, tor: Option<Tor>, env: Env)
    requires env.run(Args(url, tor)).1.Some?
    ensures YoutubeDL(url, tor, env).1.value.Geo? <==>
      exists i :: 0 <= i < |GeoErrorPatterns| && env.matches(GeoErrorPatterns[i], YoutubeDL(url, tor, env).0)
    ensures DownloadErrorText(YoutubeDL(url, tor, env).1.value) == ErrorText(env.run(Args(url, tor)).1.value)
  {
    AnyMatchExists(GeoErrorPatterns, YoutubeDL(url, tor, env).0, env.matches);
  }

  // ---- uploadAllToS3 ----

  datatype Uploaded = Uploaded(effects: seq<Effect>, err: Option<Error>)

  function FileInput(dir: string, name: string, env: Env): PutInput
  {
    UploadInput(env.bucket, env.join(dir, name), env.base)
  }

  /** The uploads of `names`, stopping at the first that fails. */
  function UploadRun(dir: string, names: seq<string>, env: Env): Uploaded
  {
    if names == [] then Uploaded([], None)
    else
      var input := FileInput(dir, names[0], env);
      if env.put(input).Some? then Uploaded([Upload(input)], env.put(input))
      else
        var rest := UploadRun(dir, names[1..], env);
        Uploaded([Upload(input)] + rest.effects, rest.err)
  }

  /** Files are uploaded in listing order; the run stops at the first error,
    * which it returns, and succeeds only when every file was uploaded. */
  lemma {:induction false} UploadsInOrder(dir: string, names: seq<string>, env: Env)
    ensures var u := UploadRun(dir, names, env);
      && |u.effects| <= |names|
      && (forall j :: 0 <= j < |u.effects| ==> u.effects[j] == Upload(FileInput(dir, names[j], env)))
      && (forall j :: 0 <= j < |u.effects| - 1 ==> env.put(FileInput(dir, names[j], env)).None?)
      && (u.err.None? <==> |u.effects| == |names| && forall j :: 0 <= j < |names| ==> env.put(FileInput(dir, names[j], env)).None?)
      && (u.err.Some? ==> u.effects != [] && u.err == env.put(FileInput(dir, names[|u.effects| - 1], env)))
  {
    if names != [] && env.put(FileInput(dir, names[0], env)).None? {
      UploadsInOrder(dir, names[1..], env);
      forall j | 0 <= j < |names| - 1
        ensures names[1..][j] == names[j + 1]
      {
      }
    }
  }

  /** A run of uploads only uploads. */
  lemma {:induction false} UploadsOnly(dir: string, names: seq<string>, env: Env)
    ensures forall e :: e in UploadRun(dir, names, env).effects ==> e.Upload?
  {
    if names != [] && env.put(FileInput(dir, names[0], env)).None? {
      UploadsOnly(dir, names[1..], env);
    }
  }

  class Worker {
    /** The jobs being worked on. */
    var running: set<int>
    /** Everything done so far. */
    var effects: seq<Effect>

    constructor ()
      ensures running == {} && effects == []
    {
      running := {};
      effects := [];
    }

    /** A statement in the job's transaction; only a running job runs one. */
    method RunStmt(id: int, s: Stmt, env: Env) returns (err: Option<Error>)
      requires id in running
      modifies this
      ensures running == old(running)
      ensures effects == old(effects) + [Exec(s)] && err == env.exec(s)
    {
      effects := effects + [Exec(s)];
      err := env.exec(s);
    }

    /** uploadAllToS3 */
    method UploadAll(dir: string, env: Env) returns (err: Option<Error>)
      modifies this
      ensures running == old(running)
      ensures env.files.Err? ==> effects == old(effects) && err == Some(env.files.error)
      ensures env.files.Ok? ==>
        effects == old(effects) + UploadRun(dir, env.files.value, env).effects && err == UploadRun(dir, env.files.value, env).err
    {
      if env.files.Err? {
        return Some(env.files.error);
      }
      var names := env.files.value;
      var i := 0;
      err := None;
      while i < |names|
        invariant 0 <= i <= |names|
        invariant running == old(running)
        invariant UploadRun(dir, names, env).err == UploadRun(dir, names[i..], env).err
        invariant effects + UploadRun(dir, names[i..], env).effects == old(effects) + UploadRun(dir, names, env).effects
      {
        assert names[i..][0] == names[i] && names[i..][1..] == names[i + 1..];
        var input := FileInput(dir, names[i], env);
        effects := effects + [Upload(input)];
        var e := env.put(input);
        if e.Some? {
          return e;
        }
        i := i + 1;
      }
    }

    /** The job between the deferred registration and the deferred commit:
      * each failure records its error and ends the job. */
    method Body(job: Job, env: Env)
      requires job.id in running
      modifies this
      ensures running == old(running)
      ensures effects == old(effects) + BodyEffects(job, env)
    {
      if env.tmpdir.Err? {
        var _ := RunStmt(job.id, UpdateError(ErrorText(env.tmpdir.error), job.id), env);
        return;
      }
      if job.retries > 0 {
        WithTor(job, env.tmpdir.value, env);
      } else {
        Download(job, None, env.tmpdir.value, env);
      }
    }

    /** A retry starts tor, records its GeoIP, and downloads through it. */
    method WithTor(job: Job, dir: string, env: Env)
      requires job.id in running
      modifies this
      ensures running == old(running)
      ensures effects == old(effects) + TorEffects(job, dir, env)
    {
      ghost var e0 := effects;
      effects := effects + [StartTor];
      if env.tor.Err? {
        var _ := RunStmt(job.id, UpdateError(ErrorText(env.tor.error), job.id), env);
        EffectsAssoc(e0, [StartTor], [Exec(UpdateError(ErrorText(env.tor.error), job.id))]);
        return;
      }
      ThroughTor(job, env.tor.value, dir, env);
      EffectsAssoc(e0, [StartTor], GeoipEffects(job, env.tor.value, dir, env));
    }

    /** With tor running: its GeoIP is stored, then the download goes
      * through it. A GeoIP that cannot be marshalled ends the job. */
    method ThroughTor(job: Job, tor: Tor, dir: string, env: Env)
      requires job.id in running
      modifies this
      ensures running == old(running)
      ensures effects == old(effects) + GeoipEffects(job, tor, dir, env)
    {
      if tor.geoip.Err? {
        return;
      }
      ghost var e0 := effects;
      var s := UpdateGeoip(tor.geoip.value, job.id);
      var dberr := RunStmt(job.id, s, env);
      if dberr.Some? {
        assert [Exec(s)] + [] == [Exec(s)];
        return;
      }
      Download(job, Some(tor), dir, env);
      EffectsAssoc(e0, [Exec(s)], DownloadEffects(job, Some(tor), dir, env));
    }

    /** From youtube-dl onwards, in the temporary directory `dir`. */
    method Download(job: Job, tor: Option<Tor>, dir: string, env: Env)
      requires job.id in running
      modifies this
      ensures running == old(running)
      ensures effects == old(effects) + DownloadEffects(job, tor, dir, env)
    {
      ghost var e0 := effects;
      effects := effects + [Run(Args(job.url, tor))];
      var (output, err) := YoutubeDL(job.url, tor, env);
      if err.Some? {
        RecordFailure(job, tor, output, err.value, env);
        EffectsAssoc(e0, [Run(Args(job.url, tor))], FailureEffects(job, tor, output, err.value, env));
      } else {
        Store(job, output, dir, env);
        EffectsAssoc(e0, [Run(Args(job.url, tor))], SuccessEffects(job, output, dir, env));
      }
    }

    /** A failed download: the output and error are stored, and a geoError
      * asks for a retry. */
    method RecordFailure(job: Job, tor: Option<Tor>, output: string, err: DownloadError, env: Env)
      requires job.id in running
      modifies this
      ensures running == old(running)
      ensures effects == old(effects) + FailureEffects(job, tor, output, err, env)
    {
      var s := if tor.Some? then UpdateOutputErrorTorlog(output, DownloadErrorText(err), tor.value.log, job.id)
               else UpdateOutputError(output, DownloadErrorText(err), job.id);
      var dberr := RunStmt(job.id, s, env);
      if dberr.Some? {
        return;
      }
      if !err.Geo? {
        return;
      }
      effects := effects + [DbQuery(InsertRetries(job.url, job.retries + 1))];
    }

    /** A successful download: the output is stored, then the files are
      * uploaded. */
    method Store(job: Job, output: string, dir: string, env: Env)
      requires job.id in running
      modifies this
      ensures running == old(running)
      ensures effects == old(effects) + SuccessEffects(job, output, dir, env)
    {
      var dberr := RunStmt(job.id, UpdateOutput(output, env.now, job.id), env);
      if dberr.Some? {
        return;
      }
      var uerr := UploadAll(dir, env);
      if uerr.Some? {
        var _ := RunStmt(job.id, UpdateError(ErrorText(uerr.value), job.id), env);
        return;
      }
      var _ := RunStmt(job.id, UpdateUploadedAt(env.uploadedAt, job.id), env);
    }

    /** doWork: the job is registered as running for the whole of its work,
      * and the transaction is committed on every path. */
    method DoWork(job: Job, env: Env)
      modifies this
      ensures running == old(running) - {job.id}
      ensures effects == old(effects) + WorkEffects(job, env)
    {
      running := running + {job.id};
      Body(job, env);
      effects := effects + [Commit];
      running := running - {job.id};
    }
  }

  lemma EffectsAssoc(a: seq<Effect>, b: seq<Effect>, c: seq<Effect>)
    ensures a + b + c == a + (b + c)
  {
  }

  function UploadEffects(dir: string, env: Env): Uploaded
  {
    if env.files.Err? then Uploaded([], Some(env.files.error)) else UploadRun(dir, env.files.value, env)
  }

  function FailureEffects(job: Job, tor: Option<Tor>, output: string, err: DownloadError, env: Env): seq<Effect>
  {
    var s := if tor.Some? then UpdateOutputErrorTorlog(output, DownloadErrorText(err), tor.value.log, job.id)
             else UpdateOutputError(output, DownloadErrorText(err), job.id);
    [Exec(s)] + if env.exec(s).Some? || !err.Geo? then [] else [DbQuery(InsertRetries(job.url, job.retries + 1))]
  }

  function SuccessEffects(job: Job, output: string, dir: string, env: Env): seq<Effect>
  {
    var s := UpdateOutput(output, env.now, job.id);
    [Exec(s)] +
    if env.exec(s).Some? then []
    else
      var u := UploadEffects(dir, env);
      u.effects + if u.err.Some? then [Exec(UpdateError(ErrorText(u.err.value), job.id))]
                  else [Exec(UpdateUploadedAt(env.uploadedAt, job.id))]
  }

  function DownloadEffects(job: Job, tor: Option<Tor>, dir: string, env: Env): seq<Effect>
  {
    var (output, err) := YoutubeDL(job.url, tor, env);
    [Run(Args(job.url, tor))] +
    if err.Some? then FailureEffects(job, tor, output, err.value, env) else SuccessEffects(job, output, dir, env)
  }

  function TorEffects(job: Job, dir: string, env: Env): seq<Effect>
  {
    [StartTor] +
    if env.tor.Err? then [Exec(UpdateError(ErrorText(env.tor.error), job.id))]
    else GeoipEffects(job, env.tor.value, dir, env)
  }

  function GeoipEffects(job: Job, tor: Tor, dir: string, env: Env): seq<Effect>
  {
    if tor.geoip.Err? then []
    else
      var s := UpdateGeoip(tor.geoip.value, job.id);
      [Exec(s)] + if env.exec(s).Some? then [] else DownloadEffects(job, Some(tor), dir, env)
  }

  function BodyEffects(job: Job, env: Env): seq<Effect>
  {
    if env.tmpdir.Err? then [Exec(UpdateError(ErrorText(env.tmpdir.error), job.id))]
    else if job.retries > 0 then TorEffects(job, env.tmpdir.value, env)
    else DownloadEffects(job, None, env.tmpdir.value, env)
  }

  /** Everything doWork does, ending with the commit. */
  function WorkEffects(job: Job, env: Env): seq<Effect>
  {
    BodyEffects(job, env) + [Commit]
  }

  /** The tor a job downloads through: a retry's, none otherwise. */
  function TorFor(job: Job, env: Env): Option<Tor>
    requires job.retries > 0 ==> env.tor.Ok?
  {
    if job.retries > 0 then Some(env.tor.value) else None
  }

  /** Tor is started exactly for a retry (once the temporary directory
    * exists), and youtube-dl goes through the proxy exactly then. */
  lemma TorOnlyOnRetry(job: Job, env: Env)
    ensures StartTor in WorkEffects(job, env) <==> env.tmpdir.Ok? && job.retries > 0
    ensures forall e :: e in WorkEffects(job, env) && e.Run? ==>
      (job.retries > 0 ==> env.tor.Ok?) && e.args == Args(job.url, TorFor(job, env))
  {
    var body := BodyEffects(job, env);
    assert WorkEffects(job, env) == body + [Commit];
    if env.tmpdir.Ok? {
      var dir := env.tmpdir.value;
      if job.retries > 0 {
        if env.tor.Ok? {
          GeoipShape(job, env.tor.value, dir, env);
        }
      } else {
        DownloadShape(job, None, dir, env);
      }
    }
  }

  lemma DownloadShape(job: Job, tor: Option<Tor>, dir: string, env: Env)
    ensures StartTor !in DownloadEffects(job, tor, dir, env)
    ensures forall e :: e in DownloadEffects(job, tor, dir, env) && e.Run? ==> e.args == Args(job.url, tor)
  {
    var (output, err) := YoutubeDL(job.url, tor, env);
    if err.None? {
      SuccessShape(job, output, dir, env);
    }
  }

  /** A stored download runs statements and uploads, nothing else. */
  lemma SuccessShape(job: Job, output: string, dir: string, env: Env)
    ensures forall e :: e in SuccessEffects(job, output, dir, env) ==> e.Exec? || e.Upload?
  {
    if env.files.Ok? {
      UploadsOnly(dir, env.files.value, env);
    }
  }

  lemma GeoipShape(job: Job, tor: Tor, dir: string, env: Env)
    ensures StartTor !in GeoipEffects(job, tor, dir, env)
    ensures forall e :: e in GeoipEffects(job, tor, dir, env) && e.Run? ==> e.args == Args(job.url, Some(tor))
  {
    DownloadShape(job, Some(tor), dir, env);
  }

  /** The job always ends with the commit, and commits once. */
  lemma CommitsOnce(job: Job, env: Env)
    ensures WorkEffects(job, env)[|WorkEffects(job, env)| - 1] == Commit
    ensures forall i :: 0 <= i < |WorkEffects(job, env)| - 1 ==> WorkEffects(job, env)[i] != Commit
  {
    var body := BodyEffects(job, env);
    assert Commit !in body by {
      if env.tmpdir.Ok? {
        var dir := env.tmpdir.value;
        var tor := StartedTor(job, env);
        if tor.Some? { NoCommitGeoip(job, tor.value, dir, env); }
        else if job.retries <= 0 { NoCommitDownload(job, None, dir, env); }
      }
    }
    forall i | 0 <= i < |WorkEffects(job, env)| - 1
      ensures WorkEffects(job, env)[i] != Commit
    {
      assert WorkEffects(job, env)[i] == body[i];
    }
  }

  /** The tor a retry got, if it started. */
  function StartedTor(job: Job, env: Env): Option<Tor>
  {
    if job.retries > 0 && env.tor.Ok? then Some(env.tor.value) else None
  }

  lemma NoCommitDownload(job: Job, tor: Option<Tor>, dir: string, env: Env)
    ensures Commit !in DownloadEffects(job, tor, dir, env)
  {
    var (output, err) := YoutubeDL(job.url, tor, env);
    if err.None? {
      SuccessShape(job, output, dir, env);
    }
  }

  lemma NoCommitGeoip(job: Job, tor: Tor, dir: string, env: Env)
    ensures Commit !in GeoipEffects(job, tor, dir, env)
  {
    NoCommitDownload(job, Some(tor), dir, env);
  }

  /** A retry row is inserted only after a download failed with a
    * geographic block and its output was stored; it carries the same url
    * and one more retry. */
  lemma RetryOnlyOnGeoError(job: Job, env: Env, e: Effect)
    requires e in WorkEffects(job, env) && e.DbQuery?
    ensures env.tmpdir.Ok? && (job.retries > 0 ==> env.tor.Ok?)
    ensures e == DbQuery(InsertRetries(job.url, job.retries + 1))
    ensures YoutubeDL(job.url, TorFor(job, env), env).1.Some?
    ensures YoutubeDL(job.url, TorFor(job, env), env).1.value.Geo?
  {
    var body := BodyEffects(job, env);
    assert e in body;
    var dir := env.tmpdir.value;
    if job.retries > 0 {
      RetryInDownload(job, Some(env.tor.value), dir, env, e);
    } else {
      RetryInDownload(job, None, dir, env, e);
    }
  }

  lemma RetryInDownload(job: Job, tor: Option<Tor>, dir: string, env: Env, e: Effect)
    requires e in DownloadEffects(job, tor, dir, env) && e.DbQuery?
    ensures e == DbQuery(InsertRetries(job.url, job.retries + 1))
    ensures YoutubeDL(job.url, tor, env).1.Some? && YoutubeDL(job.url, tor, env).1.value.Geo?
  {
    var (output, err) := YoutubeDL(job.url, tor, env);
    if err.None? {
      SuccessShape(job, output, dir, env);
    }
  }
}
