// The JSON resources the api serves (api/resource/resource.go): a url with
// its nullable columns flattened to strings, and the pages of urls and of log
// lines with the cursor of the next page.

module Resource {
  import opened Common
  import opened UrlModel
  import opened UrlTables
  import opened UrlListing

  /** resource.URL; an empty string is omitted from the JSON. */
  datatype UrlResource = UrlResource(
    id: int, url: string, createdAt: int, updatedAt: int, status: string, error: string, file: string)

  /** resource.URLs; a nil slice (no url) is encoded as null. */
  datatype Urls = Urls(urls: Option<seq<UrlResource>>, nextCursor: int)

  /** resource.Logs */
  datatype Logs = Logs(logs: Option<seq<string>>, nextCursor: int)

  /** NewURL: the columns are copied; a null error or file becomes the
    * empty string, and a file is published under the media URL. */
  function NewURL(mediaUrl: string, u: Url): (r: UrlResource)
    ensures r.id == u.id && r.url == u.url && r.createdAt == u.createdAt
      && r.updatedAt == u.updatedAt && r.status == u.status
    ensures u.error.valid ==> r.error == u.error.str
    ensures !u.error.valid ==> r.error == ""
    ensures u.file.valid ==> HasPrefix(r.file, mediaUrl) && r.file[|mediaUrl|..] == u.file.str
    ensures !u.file.valid ==> r.file == ""
  {
    var file := if u.file.valid then mediaUrl + u.file.str else "";
    assert u.file.valid ==> file[..|mediaUrl|] == mediaUrl && file[|mediaUrl|..] == u.file.str;
    UrlResource(u.id, u.url, u.createdAt, u.updatedAt, u.status,
      if u.error.valid then u.error.str else "", file)
  }

  /** The next page of urls starts below the last id served; an empty page
    * gives 0, which lists from the newest again. */
  function NextUrlCursor(urls: seq<Url>): int
  {
    if |urls| > 0 then urls[|urls| - 1].id else 0
  }

  /** The page of urls NewURLs builds. */
  function UrlsOf(mediaUrl: string, urls: seq<Url>): Urls
  {
    Urls(if urls == [] then None else Some(seq(|urls|, i requires 0 <= i < |urls| => NewURL(mediaUrl, urls[i]))),
         NextUrlCursor(urls))
  }

  /** The page of log lines NewLogs builds. */
  function LogsOf(logs: seq<string>, cursor: int): Logs
  {
    Logs(if logs == [] then None else Some(logs), cursor + |logs|)
  }

  /** NewURLs */
  method NewURLs(mediaUrl: string, urls: seq<Url>) returns (r: Urls)
    ensures r == UrlsOf(mediaUrl, urls)
    ensures urls == [] <==> r.urls.None?
    ensures r.urls.Some? ==>
      (|r.urls.value| == |urls|
       && forall i :: 0 <= i < |urls| ==> r.urls.value[i] == NewURL(mediaUrl, urls[i]))
    ensures r.nextCursor == NextUrlCursor(urls)
  {
    var out: Option<seq<UrlResource>> := None;
    var i := 0;
    while i < |urls|
      invariant 0 <= i <= |urls|
      invariant i == 0 <==> out.None?
      invariant out.Some? ==>
        (|out.value| == i
         && forall j :: 0 <= j < i ==> out.value[j] == NewURL(mediaUrl, urls[j]))
    {
      var res := NewURL(mediaUrl, urls[i]);
      out := Some(if out.None? then [res] else out.value + [res]);
      i := i + 1;
    }
    var cursor := 0;
    if |urls| > 0 {
      cursor := urls[|urls| - 1].id;
    }
    if out.Some? {
      assert out.value == seq(|urls|, i requires 0 <= i < |urls| => NewURL(mediaUrl, urls[i]));
    }
    r := Urls(out, cursor);
  }

  /** NewLogs */
  method NewLogs(logs: seq<string>, cursor: int) returns (r: Logs)
    ensures r == LogsOf(logs, cursor)
    ensures logs == [] <==> r.logs.None?
    ensures r.logs.Some? ==> r.logs.value == logs
    ensures r.nextCursor == cursor + |logs|
  {
    var out: Option<seq<string>> := None;
    var i := 0;
    while i < |logs|
      invariant 0 <= i <= |logs|
      invariant i == 0 <==> out.None?
      invariant out.Some? ==> out.value == logs[..i]
    {
      out := Some(if out.None? then [logs[i]] else out.value + [logs[i]]);
      i := i + 1;
    }
    if out.Some? {
      assert logs[..i] == logs;
    }
    r := Logs(out, cursor + |logs|);
  }

  /** Following next_cursor: the page requested with the cursor a non-empty
    * page returned lists the selection from the row after its last one. */
  lemma NextCursorContinues(t: Tables, q: UrlsQuery)
    requires Valid(t) && ListUrls(t, q).Ok? && ListUrls(t, q).value != []
    ensures var page := ListUrls(t, q).value;
      NewestListed(t.rows, q.(cursor := NextUrlCursor(page))) == NewestListed(t.rows, q)[|page|..]
  {
    var all := NewestListed(t.rows, q);
    var page := ListUrls(t, q).value;
    assert page == all[..|page|];
    NextPageContinues(t.rows, t.nextUrlId, q, |page|);
  }

  /** Following next_cursor through the logs of a url: nothing new comes
    * back until a line is appended, then exactly that line. */
  lemma NextLogCursorResumes(t: Tables, id: int, cursor: nat, log: string)
    requires Valid(t) && Find(t.rows, HasId(id)).Some?
    requires cursor <= |t.rows[Find(t.rows, HasId(id)).value].url.logs|
    ensures var page := UrlTables.ListLogs(t, id, cursor).value;
      UrlTables.ListLogs(t, id, cursor + |page|) == Ok([])
      && UrlTables.ListLogs(UpdateById(t, id, AppendLogTo(log)), id, cursor + |page|) == Ok([log])
  {
    var k := Find(t.rows, HasId(id)).value;
    var logs := t.rows[k].url.logs;
    assert UrlTables.ListLogs(t, id, cursor) == Ok(logs[cursor..]);
    assert logs[|logs|..] == [];
    LogsResume(t, id, cursor, log);
  }
}
