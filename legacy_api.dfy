// The first generation's JSON api (server/api.go and query/query.go): a
// string router over /api/urls, the page parsing of the query string, and
// the three handlers. serveHTTP's outcome is written exactly as the api
// generation's serveHTTP writes it (Handler.ServeHTTP). strconv.ParseInt,
// JSON decoding and encoding and payload validation are parameters.

module LegacyApi {
  import opened Common
  import opened Http
  import opened UrlModel
  import opened LegacyStore
  import opened Handler

  /** url.Values: each key's values in order. */
  type Values = map<string, seq<string>>

  /** Values.Get: the first value, or "" when there is none. */
  function Get(v: Values, key: string): (s: string)
    ensures (key !in v || v[key] == []) ==> s == ""
  {
    if key in v && v[key] != [] then v[key][0] else ""
  }

  const DefaultLimit := 10

  /** query.ParsePage: limit 10 and cursor 0 unless given; an empty value
    * counts as absent; a value that does not parse is an error. */
  function ParsePage(v: Values, parseInt: string -> Result<int>): Result<Page>
  {
    var limit := Get(v, "limit");
    if limit != "" && parseInt(limit).Err? then Err(parseInt(limit).error)
    else
      var page := Page(if limit != "" then parseInt(limit).value else DefaultLimit, 0);
      var cursor := Get(v, "cursor");
      if cursor != "" && parseInt(cursor).Err? then Err(parseInt(cursor).error)
      else Ok(page.(cursor := if cursor != "" then parseInt(cursor).value else 0))
  }

  /** parseQuery's result: the page, or an httpError. */
  datatype Query = QueryOk(page: Page) | QueryFail(code: int, err: Error)

  /** parseQuery: the same parsing, each failure an httpError 400. */
  function ParseQuery(v: Values, parseInt: string -> Result<int>): Query
  {
    var page := Page(DefaultLimit, 0);
    var limit := Get(v, "limit");
    if limit != "" && parseInt(limit).Err? then QueryFail(StatusBadRequest, parseInt(limit).error)
    else
      var page := if limit != "" then page.(limit := parseInt(limit).value) else page;
      var cursor := Get(v, "cursor");
      if cursor != "" && parseInt(cursor).Err? then QueryFail(StatusBadRequest, parseInt(cursor).error)
      else QueryOk(if cursor != "" then page.(cursor := parseInt(cursor).value) else page)
  }

  /** The two parsers agree: parseQuery is ParsePage with its errors made
    * 400 httpErrors. */
  lemma ParseQueryIsParsePage(v: Values, parseInt: string -> Result<int>)
    ensures ParsePage(v, parseInt).Ok? ==> ParseQuery(v, parseInt) == QueryOk(ParsePage(v, parseInt).value)
    ensures ParsePage(v, parseInt).Err? ==> ParseQuery(v, parseInt) == QueryFail(StatusBadRequest, ParsePage(v, parseInt).error)
  {
  }

  /** A query that gives neither value, or gives them empty, asks for the
    * first ten urls. */
  lemma DefaultPage(v: Values, parseInt: string -> Result<int>)
    requires Get(v, "limit") == "" && Get(v, "cursor") == ""
    ensures ParsePage(v, parseInt) == Ok(Page(10, 0))
  {
  }

  /** A page is parsed only if every non-empty value parses, and then carries
    * the parsed values; the limit's error is reported first. */
  lemma ParsedPage(v: Values, parseInt: string -> Result<int>)
    ensures var limit, cursor := Get(v, "limit"), Get(v, "cursor");
      (ParsePage(v, parseInt).Ok? <==> (limit == "" || parseInt(limit).Ok?) && (cursor == "" || parseInt(cursor).Ok?))
      && (ParsePage(v, parseInt).Ok? ==>
            ParsePage(v, parseInt).value.limit == (if limit == "" then DefaultLimit else parseInt(limit).value)
            && ParsePage(v, parseInt).value.cursor == (if cursor == "" then 0 else parseInt(cursor).value))
      && (limit != "" && parseInt(limit).Err? ==> ParsePage(v, parseInt) == Err(parseInt(limit).error))
  {
  }

  /** Where serveHTTP sends a request. */
  datatype Target = ListUrlsTarget | CreateUrlTarget | ListLogsTarget(id: int) | Refuse(code: int)

  const ApiUrls := "/api/urls"

  /** serveHTTP's path router: /api/urls lists on GET and creates on POST;
    * /api/urls/{id}/logs lists a url's logs on GET. The id is checked before
    * the method. */
  function Route(r: Request, parseInt: string -> Result<int>): Target
  {
    if !HasPrefix(r.path, ApiUrls) then Refuse(StatusNotFound)
    else if r.path == ApiUrls then
      if r.verb == "GET" then ListUrlsTarget
      else if r.verb == "POST" then CreateUrlTarget
      else Refuse(StatusMethodNotAllowed)
    else
      var split := Split(r.path, '/');
      if |split| != 5 || split[4] != "logs" then Refuse(StatusNotFound)
      else if parseInt(split[3]).Err? then Refuse(StatusNotFound)
      else if r.verb != "GET" then Refuse(StatusMethodNotAllowed)
      else ListLogsTarget(parseInt(split[3]).value)
  }

  /** listURLs */
  function ListURLs(v: Values, parseInt: string -> Result<int>, list: Page -> Result<seq<Url>>,
                    marshal: seq<Url> -> Result<string>): Outcome
  {
    match ParseQuery(v, parseInt)
    case QueryFail(_, e) => HttpFail(StatusBadRequest, Some(e))
    case QueryOk(page) =>
      match list(page)
      case Err(e) => Fail(e)
      case Ok(urls) =>
        match marshal(urls)
        case Err(e) => Fail(e)
        case Ok(b) => Respond(b, StatusOK)
  }

  /** createURL: the decoded payload is the url to create. */
  function CreateURL(payload: Result<string>, validate: string -> Option<Error>, create: string -> Result<Url>,
                     marshal: Url -> Result<string>): Outcome
  {
    match payload
    case Err(e) => HttpFail(StatusBadRequest, Some(e))
    case Ok(url) =>
      if validate(url).Some? then HttpFail(StatusBadRequest, validate(url))
      else
        match create(url)
        case Err(e) => Fail(e)
        case Ok(u) =>
          match marshal(u)
          case Err(e) => Fail(e)
          case Ok(b) => Respond(b, StatusCreated)
  }

  /** listLogs */
  function ListLogs(id: int, v: Values, parseInt: string -> Result<int>, list: (int, Page) -> Result<seq<string>>,
                    marshal: seq<string> -> Result<string>): Outcome
  {
    match ParseQuery(v, parseInt)
    case QueryFail(_, e) => HttpFail(StatusBadRequest, Some(e))
    case QueryOk(page) =>
      match list(id, page)
      case Err(e) => Fail(e)
      case Ok(logs) =>
        match marshal(logs)
        case Err(e) => Fail(e)
        case Ok(b) => Respond(b, StatusOK)
  }

  /** The collaborators of apiHandler: the manager and the encoders. */
  datatype Api = Api(
    parseInt: string -> Result<int>,
    listUrls: Page -> Result<seq<Url>>,
    createUrl: string -> Result<Url>,
    listLogs: (int, Page) -> Result<seq<string>>,
    validate: string -> Option<Error>,
    marshalUrls: seq<Url> -> Result<string>,
    marshalUrl: Url -> Result<string>,
    marshalLogs: seq<string> -> Result<string>)

  /** apiHandler.serveHTTP: route, then run the handler. */
  function ServeApi(api: Api, r: Request, v: Values, payload: Result<string>): Outcome
  {
    match Route(r, api.parseInt)
    case Refuse(code) => HttpFail(code, None)
    case ListUrlsTarget => ListURLs(v, api.parseInt, api.listUrls, api.marshalUrls)
    case CreateUrlTarget => CreateURL(payload, api.validate, api.createUrl, api.marshalUrl)
    case ListLogsTarget(id) => ListLogs(id, v, api.parseInt, api.listLogs, api.marshalLogs)
  }

  predicate NoSlash(s: string)
  {
    forall i :: 0 <= i < |s| ==> s[i] != '/'
  }

  /** Splitting at a first segment without a slash. */
  lemma SplitAfter(a: string, rest: string)
    requires NoSlash(a)
    ensures Split(a + "/" + rest, '/') == [a] + Split(rest, '/')
  {
    var s := a + "/" + rest;
    IndexOfFirstSlash(a, rest);
    assert s[..|a|] == a && s[|a| + 1..] == rest;
  }

  lemma {:induction false} IndexOfFirstSlash(a: string, rest: string)
    requires NoSlash(a)
    ensures IndexOfChar(a + "/" + rest, '/') == Some(|a|)
  {
    if a != [] {
      assert (a + "/" + rest)[1..] == a[1..] + "/" + rest;
      IndexOfFirstSlash(a[1..], rest);
    }
  }

  /** Slash-free segments joined by slashes split back into them. */
  lemma {:induction false} SplitJoined(segs: seq<string>)
    requires |segs| >= 1 && forall k :: 0 <= k < |segs| ==> NoSlash(segs[k])
    ensures Split(Join(segs, "/"), '/') == segs
  {
    if |segs| == 1 {
      assert IndexOfChar(segs[0], '/').None?;
    } else {
      var init := segs[..|segs| - 1];
      SplitJoined(init);
      SplitSnoc(Join(init, "/"), segs[|segs| - 1], init);
      assert init + [segs[|segs| - 1]] == segs;
    }
  }

  /** Appending a slash and a slash-free segment adds that segment. */
  lemma {:induction false} SplitSnoc(s: string, e: string, parts: seq<string>)
    requires NoSlash(e) && Split(s, '/') == parts
    ensures Split(s + "/" + e, '/') == parts + [e]
    decreases |s|
  {
    var t := s + "/" + e;
    if IndexOfChar(s, '/').None? {
      assert Split(s, '/') == [s];
      SplitAfter(s, e);
      assert IndexOfChar(e, '/').None?;
    } else {
      var k := IndexOfChar(s, '/').value;
      var rest := Split(s[k + 1..], '/');
      SplitAt(s, k);
      SplitSnocHead(s, e, k);
      SplitSnoc(s[k + 1..], e, rest);
      assert [s[..k]] + (rest + [e]) == parts + [e];
    }
  }

  /** A slash already in `s` still ends the first segment once "/e" is
    * appended. */
  lemma SplitSnocHead(s: string, e: string, k: nat)
    requires IndexOfChar(s, '/') == Some(k)
    ensures Split(s + "/" + e, '/') == [s[..k]] + Split(s[k + 1..] + "/" + e, '/')
  {
    var t := s + "/" + e;
    FirstSlashKept(s, "/" + e, k);
    assert t == s + ("/" + e);
    SplitAt(t, k);
    assert t[..k] == s[..k];
    assert t[k + 1..] == s[k + 1..] + "/" + e;
  }

  /** Splitting at the first slash, at index k. */
  lemma SplitAt(t: string, k: nat)
    requires IndexOfChar(t, '/') == Some(k) && k < |t|
    ensures Split(t, '/') == [t[..k]] + Split(t[k + 1..], '/')
  {
  }

  lemma {:induction false} FirstSlashKept(s: string, tail: string, k: nat)
    requires IndexOfChar(s, '/') == Some(k)
    ensures IndexOfChar(s + tail, '/') == Some(k)
    decreases |s|
  {
    if s[0] != '/' {
      assert (s + tail)[1..] == s[1..] + tail;
      FirstSlashKept(s[1..], tail, k - 1);
    }
  }

  lemma JoinLogsPath(third: string, idText: string)
    ensures Join(["", "api", third, idText, "logs"], "/") == "/api/" + third + "/" + idText + "/logs"
  {
    var segs := ["", "api", third, idText, "logs"];
    var s1, s2, s3, s4 := segs[..1], segs[..2], segs[..3], segs[..4];
    assert s2[..1] == s1 && s3[..2] == s2 && s4[..3] == s3 && segs[..4] == s4;
    assert Join(s1, "/") == "";
    assert Join(s2, "/") == "" + "/" + "api";
    assert Join(s3, "/") == "" + "/" + "api" + "/" + third;
    assert Join(s4, "/") == "" + "/" + "api" + "/" + third + "/" + idText;
    assert Join(segs, "/") == "" + "/" + "api" + "/" + third + "/" + idText + "/" + "logs";
  }

  lemma SplitLogsPath(third: string, idText: string)
    requires NoSlash(third) && NoSlash(idText)
    ensures Split("/api/" + third + "/" + idText + "/logs", '/') == ["", "api", third, idText, "logs"]
  {
    JoinLogsPath(third, idText);
    SplitJoined(["", "api", third, idText, "logs"]);
  }

  /** The path of a url's logs: /api/urls/{id}/logs when `third` is "urls". */
  function LogsPath(third: string, idText: string): string
  {
    "/api/" + third + "/" + idText + "/logs"
  }

  /** GET of a url's logs path reaches listLogs with the parsed id; another
    * method is 405; an id that does not parse is 404 whatever the method.
    * Only the prefix /api/urls is checked, so a third segment that merely
    * begins with "urls" (/api/urlsfoo/{id}/logs) is routed the same way. */
  lemma LogsRoute(third: string, idText: string, verb: string, parseInt: string -> Result<int>)
    requires NoSlash(third) && NoSlash(idText) && HasPrefix(third, "urls")
    ensures var t := Route(Request(verb, LogsPath(third, idText)), parseInt);
      (parseInt(idText).Err? ==> t == Refuse(StatusNotFound))
      && (parseInt(idText).Ok? && verb == "GET" ==> t == ListLogsTarget(parseInt(idText).value))
      && (parseInt(idText).Ok? && verb != "GET" ==> t == Refuse(StatusMethodNotAllowed))
  {
    var p := LogsPath(third, idText);
    SplitLogsPath(third, idText);
    var split := Split(p, '/');
    assert |split| == 5 && split[3] == idText && split[4] == "logs";
    assert HasPrefix(p, ApiUrls) && p != ApiUrls by {
      assert p[..|ApiUrls|] == "/api/" + third[..4];
      assert |p| > |ApiUrls|;
    }
  }

  /** Only the exact path /api/urls lists and creates; other methods on it
    * are 405, and a path outside /api/urls is 404. */
  lemma UrlsRoute(r: Request, parseInt: string -> Result<int>)
    ensures r.path == ApiUrls ==>
      Route(r, parseInt) == (if r.verb == "GET" then ListUrlsTarget else if r.verb == "POST" then CreateUrlTarget
                             else Refuse(StatusMethodNotAllowed))
    ensures !HasPrefix(r.path, ApiUrls) ==> Route(r, parseInt) == Refuse(StatusNotFound)
    ensures Route(r, parseInt) == ListUrlsTarget || Route(r, parseInt) == CreateUrlTarget ==> r.path == ApiUrls
  {
  }

  /** A bad query is answered 400 by both list handlers, before the manager
    * is asked. */
  lemma BadQueryIs400(api: Api, r: Request, v: Values, payload: Result<string>)
    requires ParsePage(v, api.parseInt).Err?
    requires Route(r, api.parseInt).ListUrlsTarget? || Route(r, api.parseInt).ListLogsTarget?
    ensures ServeApi(api, r, v, payload) == HttpFail(StatusBadRequest, Some(ParsePage(v, api.parseInt).error))
  {
    ParseQueryIsParsePage(v, api.parseInt);
  }

  /** A refused request is answered with the refusal's status and its
    * status text. */
  lemma RefusedAnswer(api: Api, r: Request, v: Values, payload: Result<string>)
    requires Route(r, api.parseInt).Refuse?
    ensures var o := ServeApi(api, r, v, payload);
      Status(o) == Route(r, api.parseInt).code && Body(o) == StatusText(Route(r, api.parseInt).code)
  {
  }
}
