// The api generation's HTTP handlers (api/server/handler): each handler is a
// chain of parse, call and serialise steps that ends in a response or an
// error, and serveHTTP writes that outcome. An httpError carries its own
// status; any other error is a 500. The collaborators — query validation,
// JSON decoding and encoding, strconv.ParseInt and the manager — are
// parameters, so each handler is a function of what they return.

module Handler {
  import opened Common
  import opened Http
  import opened UrlModel
  import opened UrlTables
  import opened Resource
  import opened ManagerServer

  /** What a handlerFunc returns: a response, an httpError (with an optional
    * wrapped error), or any other error. */
  datatype Outcome = Respond(body: string, code: int) | HttpFail(code: int, err: Option<Error>) | Fail(error: Error)

  /** httpError.Error: the wrapped error's text, or the status text. */
  function HttpErrorText(code: int, err: Option<Error>): (text: string)
    ensures err.None? ==> text == StatusText(code)
    ensures err.Some? ==> text == ErrorText(err.value)
  {
    match err
    case None => StatusText(code)
    case Some(e) => ErrorText(e)
  }

  /** The status an outcome is answered with. */
  function Status(o: Outcome): int
  {
    match o
    case Respond(_, code) => code
    case HttpFail(code, _) => code
    case Fail(_) => StatusInternalServerError
  }

  /** The body an outcome is answered with. */
  function Body(o: Outcome): string
  {
    match o
    case Respond(body, _) => body
    case HttpFail(code, err) => HttpErrorText(code, err)
    case Fail(e) => ErrorText(e)
  }

  /** The calls serveHTTP makes on the writer. */
  function ServeOps(o: Outcome): seq<Op>
  {
    match o
    case Respond(body, code) => [SetHeader("Content-Type", "application/json"), WriteHeader(code), Write(body)]
    case HttpFail(code, err) => [WriteHeader(code), Write(HttpErrorText(code, err))]
    case Fail(e) => [WriteHeader(StatusInternalServerError), Write(ErrorText(e))]
  }

  /** serveHTTP */
  method ServeHTTP(w: Writer, o: Outcome)
    modifies w
    ensures w.response == ApplyAll(old(w.response), ServeOps(o))
  {
    if o.Respond? {
      ApplyAll3(w.response, SetHeader("Content-Type", "application/json"), WriteHeader(o.code), Write(o.body));
      w.SetHeader("Content-Type", "application/json");
      w.WriteHeader(o.code);
      w.Write(o.body);
      return;
    }
    var code, text := StatusInternalServerError, "";
    if o.HttpFail? {
      code, text := o.code, HttpErrorText(o.code, o.err);
    } else {
      text := ErrorText(o.error);
    }
    ApplyAll2(w.response, WriteHeader(code), Write(text));
    w.WriteHeader(code);
    w.Write(text);
  }

  /** On a fresh writer the client receives the outcome's status and body;
    * the handler sets a Content-Type, JSON, only for a response. */
  lemma Served(o: Outcome)
    requires Status(o) != 0
    ensures var r := ApplyAll(Fresh, ServeOps(o));
      r.status == Status(o) && r.body == Body(o)
      && (o.Respond? <==> "Content-Type" in r.header)
      && (o.Respond? ==> r.header["Content-Type"] == "application/json")
  {
    match o
    case Respond(body, code) =>
      ApplyAll3(Fresh, SetHeader("Content-Type", "application/json"), WriteHeader(code), Write(body));
    case HttpFail(code, err) =>
      ApplyAll2(Fresh, WriteHeader(code), Write(HttpErrorText(code, err)));
    case Fail(e) =>
      ApplyAll2(Fresh, WriteHeader(StatusInternalServerError), Write(ErrorText(e)));
  }

  /** listURLs: an invalid query is 400; the manager's and the encoder's
    * errors pass through. */
  function ListURLs(query: Result<UrlsQuery>, list: UrlsQuery -> Result<seq<Url>>,
                    mediaUrl: string, marshal: Urls -> Result<string>): Outcome
  {
    match query
    case Err(e) => HttpFail(StatusBadRequest, Some(e))
    case Ok(q) =>
      match list(q)
      case Err(e) => Fail(e)
      case Ok(urls) =>
        match marshal(UrlsOf(mediaUrl, urls))
        case Err(e) => Fail(e)
        case Ok(b) => Respond(b, StatusOK)
  }

  /** createURL: an undecodable or invalid payload is 400, decided before
    * the manager is asked. */
  function CreateURL(payload: Result<UrlPayload>, validate: UrlPayload -> Option<Error>,
                     create: UrlPayload -> Result<Url>, mediaUrl: string,
                     marshal: UrlResource -> Result<string>): Outcome
  {
    match payload
    case Err(e) => HttpFail(StatusBadRequest, Some(e))
    case Ok(p) =>
      if validate(p).Some? then HttpFail(StatusBadRequest, validate(p))
      else
        match create(p)
        case Err(e) => Fail(e)
        case Ok(u) =>
          match marshal(NewURL(mediaUrl, u))
          case Err(e) => Fail(e)
          case Ok(b) => Respond(b, StatusCreated)
  }

  /** detailURL: an id that is not an integer, or a url the store does not
    * find, is 404. The route's pattern has one group, the id. */
  function DetailURL(groups: seq<string>, parseInt: string -> Result<int>, get: int -> Result<Url>,
                     mediaUrl: string, marshal: UrlResource -> Result<string>): Outcome
    requires |groups| >= 2
  {
    match parseInt(groups[1])
    case Err(_) => HttpFail(StatusNotFound, None)
    case Ok(id) =>
      match get(id)
      case Err(ErrNoRows) => HttpFail(StatusNotFound, None)
      case Err(e) => Fail(e)
      case Ok(u) =>
        match marshal(NewURL(mediaUrl, u))
        case Err(e) => Fail(e)
        case Ok(b) => Respond(b, StatusOK)
  }

  /** deleteURL: success is 204 with no body. */
  function DeleteURL(groups: seq<string>, parseInt: string -> Result<int>, delete: int -> Option<Error>): Outcome
    requires |groups| >= 2
  {
    match parseInt(groups[1])
    case Err(_) => HttpFail(StatusNotFound, None)
    case Ok(id) =>
      match delete(id)
      case Some(e) => Fail(e)
      case None => Respond("", StatusNoContent)
  }

  /** retryURL: the retried url is answered 201. */
  function RetryURL(groups: seq<string>, parseInt: string -> Result<int>, retry: int -> Result<Url>,
                    mediaUrl: string, marshal: UrlResource -> Result<string>): Outcome
    requires |groups| >= 2
  {
    match parseInt(groups[1])
    case Err(_) => HttpFail(StatusNotFound, None)
    case Ok(id) =>
      match retry(id)
      case Err(e) => Fail(e)
      case Ok(u) =>
        match marshal(NewURL(mediaUrl, u))
        case Err(e) => Fail(e)
        case Ok(b) => Respond(b, StatusCreated)
  }

  /** listLogs: `cursor` is the cursor ParseLogs found (0 when absent); the
    * page is serialised with it, so next_cursor moves past the lines served. */
  function ListLogs(groups: seq<string>, parseInt: string -> Result<int>, cursor: Result<int>,
                    list: (int, int) -> Result<seq<string>>, marshal: Logs -> Result<string>): Outcome
    requires |groups| >= 2
  {
    match parseInt(groups[1])
    case Err(_) => HttpFail(StatusNotFound, None)
    case Ok(id) =>
      match cursor
      case Err(e) => HttpFail(StatusBadRequest, Some(e))
      case Ok(c) =>
        match list(id, c)
        case Err(e) => Fail(e)
        case Ok(logs) =>
          match marshal(LogsOf(logs, c))
          case Err(e) => Fail(e)
          case Ok(b) => Respond(b, StatusOK)
  }

  /** listURLs answers 400 exactly for an invalid query, 200 exactly when
    * the manager and the encoder succeed, and 500 otherwise. */
  lemma ListURLsStatus(query: Result<UrlsQuery>, list: UrlsQuery -> Result<seq<Url>>,
                       mediaUrl: string, marshal: Urls -> Result<string>)
    ensures var s := Status(ListURLs(query, list, mediaUrl, marshal));
      (s == StatusBadRequest <==> query.Err?)
      && (s == StatusOK <==>
            query.Ok? && list(query.value).Ok? && marshal(UrlsOf(mediaUrl, list(query.value).value)).Ok?)
      && (s == StatusBadRequest || s == StatusOK || s == StatusInternalServerError)
  {
  }

  /** A payload that does not decode or validate is refused with 400 whatever
    * the manager would do: the manager is not called. */
  lemma CreateRejectsBeforeManager(payload: Result<UrlPayload>, validate: UrlPayload -> Option<Error>,
                                   create1: UrlPayload -> Result<Url>, create2: UrlPayload -> Result<Url>,
                                   mediaUrl: string, marshal: UrlResource -> Result<string>)
    requires payload.Err? || validate(payload.value).Some?
    ensures CreateURL(payload, validate, create1, mediaUrl, marshal) == CreateURL(payload, validate, create2, mediaUrl, marshal)
    ensures Status(CreateURL(payload, validate, create1, mediaUrl, marshal)) == StatusBadRequest
  {
  }

  /** A created url is answered 201 with the encoded resource of the url the
    * manager returned. */
  lemma CreatedAnswers201(payload: Result<UrlPayload>, validate: UrlPayload -> Option<Error>,
                          create: UrlPayload -> Result<Url>, mediaUrl: string,
                          marshal: UrlResource -> Result<string>)
    requires payload.Ok? && validate(payload.value).None? && create(payload.value).Ok?
    requires marshal(NewURL(mediaUrl, create(payload.value).value)).Ok?
    ensures CreateURL(payload, validate, create, mediaUrl, marshal)
      == Respond(marshal(NewURL(mediaUrl, create(payload.value).value)).value, StatusCreated)
  {
  }

  /** detailURL answers 404 exactly for an id that is not an integer or a url
    * the store does not have; other store errors are 500. */
  lemma DetailStatus(groups: seq<string>, parseInt: string -> Result<int>, get: int -> Result<Url>,
                     mediaUrl: string, marshal: UrlResource -> Result<string>)
    requires |groups| >= 2
    ensures var s := Status(DetailURL(groups, parseInt, get, mediaUrl, marshal));
      (s == StatusNotFound <==> parseInt(groups[1]).Err? || get(parseInt(groups[1]).value) == Err(ErrNoRows))
      && (s == StatusOK <==>
            parseInt(groups[1]).Ok? && get(parseInt(groups[1]).value).Ok?
            && marshal(NewURL(mediaUrl, get(parseInt(groups[1]).value).value)).Ok?)
  {
  }

  /** deleteURL answers 204 with an empty body exactly when the deletion
    * succeeds; an id that is not an integer is 404. */
  lemma DeleteStatus(groups: seq<string>, parseInt: string -> Result<int>, delete: int -> Option<Error>)
    requires |groups| >= 2
    ensures var o := DeleteURL(groups, parseInt, delete);
      (Status(o) == StatusNoContent <==> parseInt(groups[1]).Ok? && delete(parseInt(groups[1]).value).None?)
      && (Status(o) == StatusNoContent ==> Body(o) == "")
      && (Status(o) == StatusNotFound <==> parseInt(groups[1]).Err?)
  {
  }

  /** retryURL answers 201 exactly when the retrier and the encoder succeed. */
  lemma RetryStatus(groups: seq<string>, parseInt: string -> Result<int>, retry: int -> Result<Url>,
                    mediaUrl: string, marshal: UrlResource -> Result<string>)
    requires |groups| >= 2
    ensures var s := Status(RetryURL(groups, parseInt, retry, mediaUrl, marshal));
      (s == StatusCreated <==>
         parseInt(groups[1]).Ok? && retry(parseInt(groups[1]).value).Ok?
         && marshal(NewURL(mediaUrl, retry(parseInt(groups[1]).value).value)).Ok?)
      && (s == StatusNotFound <==> parseInt(groups[1]).Err?)
  {
  }

  /** listLogs checks the id before the query, and a page served from cursor
    * `c` tells the client to continue from `c` plus the lines served. */
  lemma ListLogsHandsOffCursor(groups: seq<string>, parseInt: string -> Result<int>, cursor: Result<int>,
                               list: (int, int) -> Result<seq<string>>, marshal: Logs -> Result<string>)
    requires |groups| >= 2
    ensures var o := ListLogs(groups, parseInt, cursor, list, marshal);
      (Status(o) == StatusNotFound <==> parseInt(groups[1]).Err?)
      && (Status(o) == StatusBadRequest <==> parseInt(groups[1]).Ok? && cursor.Err?)
      && (o.Respond? ==>
            var logs := list(parseInt(groups[1]).value, cursor.value).value;
            o == Respond(marshal(Logs(if logs == [] then None else Some(logs), cursor.value + |logs|)).value, StatusOK))
  {
  }

  /** The detail of a url the store does not hold (never created, or soft
    * deleted) is 404. */
  lemma MissingUrlIsNotFound(t: Tables, groups: seq<string>, parseInt: string -> Result<int>,
                             mediaUrl: string, marshal: UrlResource -> Result<string>)
    requires |groups| >= 2 && parseInt(groups[1]).Ok?
    requires GetUrl(t, parseInt(groups[1]).value).Err?
    requires GetUrl(t, parseInt(groups[1]).value).error == ErrNoRows
    ensures Status(DetailURL(groups, parseInt, id => GetUrl(t, id), mediaUrl, marshal)) == StatusNotFound
  {
  }
}
