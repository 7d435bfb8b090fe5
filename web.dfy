// The first-generation web front (ServeHTTP and detailHandler in server.go):
// a non-empty `url` form value queues the url and redirects to the home page,
// and the request is then dispatched by its path all the same. The pages'
// own database queries and templates are not part of this model; what is
// modelled is which page serves a path, the detail page's id, and the
// replies this code writes itself.

module Web {
  import opened Common
  import opened Http

  const StatusFound := 302

  /** The page a path is dispatched to. */
  datatype Page = Lists | Detail | Callback | OAuth2 | OAuth2Callback | NoPage

  /** The switch on the path, in order. */
  function PageOf(p: string): Page
  {
    if p == "/" then Lists
    else if HasPrefix(p, "/detail/") then Detail
    else if p == "/callback/" then Callback
    else if p == "/oauth2" then OAuth2
    else if p == "/oauth2callback" then OAuth2Callback
    else NoPage
  }

  /** http.Redirect(w, r, "/", http.StatusFound); the short HTML note it
    * writes for GET requests is not modelled. */
  const RedirectOps: seq<Op> := [SetHeader("Location", "/"), WriteHeader(StatusFound)]

  /** http.NotFound */
  const NotFoundOps: seq<Op> := ErrorOps("404 page not found", StatusNotFound)

  /** A path under /detail/ has at least three segments, so detailHandler's
    * split[2] is always there when the dispatch reaches it. */
  lemma DetailPathHasId(p: string)
    requires HasPrefix(p, "/detail/")
    ensures |Split(p, '/')| >= 3
    ensures Split(p, '/')[1] == "detail"
  {
    assert p[0] == '/';
    assert IndexOfChar(p, '/') == Some(0);
    var rest := p[1..];
    assert rest[..7] == "detail/";
    assert IndexOfChar(rest, '/') == Some(6) by {
      assert rest[6] == '/';
      assert forall j :: 0 <= j < 6 ==> rest[j] != '/';
    }
    assert Split(p, '/') == [p[..0]] + Split(rest, '/');
    assert Split(rest, '/') == [rest[..6]] + Split(rest[7..], '/');
    assert rest[..6] == "detail";
  }

  /** detailHandler's id: the third path segment as an integer; an id that
    * does not parse is a 400 with a fixed message. `atoi` is strconv.Atoi. */
  function DetailId(p: string, atoi: string -> Option<int>): (r: Result<int>)
    requires |Split(p, '/')| >= 3
    ensures r.Ok? <==> atoi(Split(p, '/')[2]).Some?
    ensures r.Ok? ==> r.value == atoi(Split(p, '/')[2]).value
  {
    match atoi(Split(p, '/')[2])
    case None => Err(Failure("missing :id parameter in path"))
    case Some(id) => Ok(id)
  }

  /** The reply detailHandler writes for a bad id. */
  function DetailOps(p: string, atoi: string -> Option<int>): seq<Op>
    requires |Split(p, '/')| >= 3
  {
    if DetailId(p, atoi).Err? then ErrorOps("missing :id parameter in path", StatusBadRequest) else []
  }

  /** What this code writes for a path once dispatched. */
  function PageOps(p: string, atoi: string -> Option<int>): seq<Op>
  {
    match PageOf(p)
    case NoPage => NotFoundOps
    case Detail =>
      DetailPathHasId(p);
      DetailOps(p, atoi)
    case _ => []
  }

  /** ServeHTTP: the url to insert, if any, and the page served; the
    * redirect, when there is one, is written before the page runs. */
  method ServeHTTP(w: Writer, formUrl: string, p: string, atoi: string -> Option<int>) returns (insert: Option<string>, page: Page)
    modifies w
    ensures insert == (if formUrl != "" then Some(formUrl) else None)
    ensures page == PageOf(p)
    ensures w.response == ApplyAll(ApplyAll(old(w.response), if formUrl != "" then RedirectOps else []), PageOps(p, atoi))
  {
    insert := None;
    ghost var start := w.response;
    if formUrl != "" {
      insert := Some(formUrl);
      w.SetHeader("Location", "/");
      w.WriteHeader(StatusFound);
      ApplyAll2(start, RedirectOps[0], RedirectOps[1]);
    }
    page := PageOf(p);
    if page == NoPage {
      w.Error("404 page not found", StatusNotFound);
    } else if page == Detail {
      DetailPathHasId(p);
      var split := Split(p, '/');
      var id := atoi(split[2]);
      if id.None? {
        w.Error("missing :id parameter in path", StatusBadRequest);
        return;
      }
    }
  }

  /** Once a status is sent, later operations cannot change it. */
  lemma {:induction false} StatusSticks(r: Response, ops: seq<Op>)
    requires r.status != 0
    ensures ApplyAll(r, ops).status == r.status
  {
    if ops != [] {
      StatusSticks(r, ops[..|ops| - 1]);
    }
  }

  /** A queued url always answers 302 Found, whatever the page then writes:
    * the page's own 404 or 400 arrives after the status line. */
  lemma RedirectWins(p: string, atoi: string -> Option<int>)
    ensures ApplyAll(ApplyAll(Fresh, RedirectOps), PageOps(p, atoi)).status == StatusFound
  {
    ApplyAll2(Fresh, RedirectOps[0], RedirectOps[1]);
    StatusSticks(ApplyAll(Fresh, RedirectOps), PageOps(p, atoi));
  }

  /** Without a url, an unknown path is 404 and a detail path with a bad id
    * is 400; the other pages write their own replies. */
  lemma PlainRequestStatus(p: string, atoi: string -> Option<int>)
    ensures PageOf(p) == NoPage ==> ApplyAll(Fresh, PageOps(p, atoi)).status == StatusNotFound
    ensures PageOf(p) == Detail ==> (
      && |Split(p, '/')| >= 3
      && (ApplyAll(Fresh, PageOps(p, atoi)).status == StatusBadRequest <==> atoi(Split(p, '/')[2]).None?))
  {
    if PageOf(p) == NoPage {
      ErrorReply("404 page not found", StatusNotFound);
    }
    if PageOf(p) == Detail {
      DetailPathHasId(p);
      if atoi(Split(p, '/')[2]).None? {
        ErrorReply("missing :id parameter in path", StatusBadRequest);
      }
    }
  }
}
