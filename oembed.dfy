// The oEmbed client (api/oembed/oembed.go and the loader in
// api/oembed/providers.go): a url is looked up in the providers table, whose
// entries are the (provider, endpoint, scheme) triples in table order; the
// first scheme that matches decides, unless its endpoint asks for discovery,
// in which case (and when nothing matches) the page is searched for an
// oEmbed `<link>` element (section 4, "Discovery", of the oEmbed
// specification). The table's JSON, url.Parse, filepath.Match, query
// escaping, the HTTP fetches and the HTML parser are parameters.

module OEmbed {
  import opened Common

  // ---- the providers table ----

  datatype EndpointResource = EndpointResource(schemes: seq<string>, url: string, discovery: bool)
  datatype ProviderResource = ProviderResource(name: string, endpoints: seq<EndpointResource>)

  /** A parsed url, split at its query. */
  datatype Url = Url(withoutQuery: string, rawQuery: string)

  datatype Endpoint = Endpoint(url: Url, discovery: bool)

  /** One entry of the flattened table: a scheme and its endpoint. */
  datatype Provider = Provider(pattern: string, endpoint: Endpoint)

  /** Every endpoint url of the table parses; loadProviders panics
    * otherwise. */
  predicate Parses(table: seq<ProviderResource>, parse: string -> Option<Url>)
  {
    forall i, j :: 0 <= i < |table| && 0 <= j < |table[i].endpoints| ==> parse(table[i].endpoints[j].url).Some?
  }

  /** The entries of one endpoint, one per scheme. */
  function SchemeEntries(e: EndpointResource, u: Url, k: nat): seq<Provider>
    requires k <= |e.schemes|
  {
    if k == 0 then [] else SchemeEntries(e, u, k - 1) + [Provider(e.schemes[k - 1], Endpoint(u, e.discovery))]
  }

  /** The entries of the first `j` endpoints of a provider. */
  function EndpointEntries(endpoints: seq<EndpointResource>, parse: string -> Option<Url>, j: nat): seq<Provider>
    requires j <= |endpoints|
    requires forall k :: 0 <= k < |endpoints| ==> parse(endpoints[k].url).Some?
  {
    if j == 0 then []
    else
      var e := endpoints[j - 1];
      EndpointEntries(endpoints, parse, j - 1) + SchemeEntries(e, parse(e.url).value, |e.schemes|)
  }

  /** The flattened table of the first `i` providers. */
  function Flatten(table: seq<ProviderResource>, parse: string -> Option<Url>, i: nat): seq<Provider>
    requires i <= |table| && Parses(table, parse)
  {
    if i == 0 then []
    else Flatten(table, parse, i - 1) + EndpointEntries(table[i - 1].endpoints, parse, |table[i - 1].endpoints|)
  }

  function SchemeCount(table: seq<ProviderResource>, i: nat): nat
    requires i <= |table|
  {
    if i == 0 then 0 else SchemeCount(table, i - 1) + EndpointSchemeCount(table[i - 1].endpoints, |table[i - 1].endpoints|)
  }

  function EndpointSchemeCount(endpoints: seq<EndpointResource>, j: nat): nat
    requires j <= |endpoints|
  {
    if j == 0 then 0 else EndpointSchemeCount(endpoints, j - 1) + |endpoints[j - 1].schemes|
  }

  lemma {:induction false} SchemeEntriesShape(e: EndpointResource, u: Url, k: nat)
    requires k <= |e.schemes|
    ensures |SchemeEntries(e, u, k)| == k
    ensures forall s :: 0 <= s < k ==> SchemeEntries(e, u, k)[s] == Provider(e.schemes[s], Endpoint(u, e.discovery))
  {
    if k > 0 {
      SchemeEntriesShape(e, u, k - 1);
    }
  }

  lemma {:induction false} EndpointEntriesCount(endpoints: seq<EndpointResource>, parse: string -> Option<Url>, j: nat)
    requires j <= |endpoints|
    requires forall k :: 0 <= k < |endpoints| ==> parse(endpoints[k].url).Some?
    ensures |EndpointEntries(endpoints, parse, j)| == EndpointSchemeCount(endpoints, j)
  {
    if j > 0 {
      EndpointEntriesCount(endpoints, parse, j - 1);
      var e := endpoints[j - 1];
      SchemeEntriesShape(e, parse(e.url).value, |e.schemes|);
    }
  }

  /** There is one entry per scheme of the whole table: an endpoint without
    * schemes contributes nothing. */
  lemma {:induction false} FlattenCount(table: seq<ProviderResource>, parse: string -> Option<Url>, i: nat)
    requires i <= |table| && Parses(table, parse)
    ensures |Flatten(table, parse, i)| == SchemeCount(table, i)
  {
    if i > 0 {
      FlattenCount(table, parse, i - 1);
      EndpointEntriesCount(table[i - 1].endpoints, parse, |table[i - 1].endpoints|);
    }
  }

  /** Each entry is a scheme of some endpoint, with that endpoint's parsed
    * url and discovery flag. */
  lemma {:induction false} EndpointEntriesOrigin(endpoints: seq<EndpointResource>, parse: string -> Option<Url>, j: nat, p: Provider)
    requires j <= |endpoints|
    requires forall k :: 0 <= k < |endpoints| ==> parse(endpoints[k].url).Some?
    requires p in EndpointEntries(endpoints, parse, j)
    ensures exists k, s :: (0 <= k < j && 0 <= s < |endpoints[k].schemes|
      && p == Provider(endpoints[k].schemes[s], Endpoint(parse(endpoints[k].url).value, endpoints[k].discovery)))
  {
    var e := endpoints[j - 1];
    var u := parse(e.url).value;
    if p in EndpointEntries(endpoints, parse, j - 1) {
      EndpointEntriesOrigin(endpoints, parse, j - 1, p);
      var k, s :| 0 <= k < j - 1 && 0 <= s < |endpoints[k].schemes|
        && p == Provider(endpoints[k].schemes[s], Endpoint(parse(endpoints[k].url).value, endpoints[k].discovery));
    } else {
      SchemeEntriesShape(e, u, |e.schemes|);
      var s :| 0 <= s < |e.schemes| && SchemeEntries(e, u, |e.schemes|)[s] == p;
      assert p == Provider(endpoints[j - 1].schemes[s], Endpoint(parse(endpoints[j - 1].url).value, endpoints[j - 1].discovery));
    }
  }

  lemma {:induction false} FlattenOrigin(table: seq<ProviderResource>, parse: string -> Option<Url>, i: nat, p: Provider)
    requires i <= |table| && Parses(table, parse)
    requires p in Flatten(table, parse, i)
    ensures exists n, k, s :: (0 <= n < i && 0 <= k < |table[n].endpoints| && 0 <= s < |table[n].endpoints[k].schemes|
      && p == Provider(table[n].endpoints[k].schemes[s],
                       Endpoint(parse(table[n].endpoints[k].url).value, table[n].endpoints[k].discovery)))
  {
    if p in Flatten(table, parse, i - 1) {
      FlattenOrigin(table, parse, i - 1, p);
      var n, k, s :| 0 <= n < i - 1 && 0 <= k < |table[n].endpoints| && 0 <= s < |table[n].endpoints[k].schemes|
        && p == Provider(table[n].endpoints[k].schemes[s],
                         Endpoint(parse(table[n].endpoints[k].url).value, table[n].endpoints[k].discovery));
    } else {
      var endpoints := table[i - 1].endpoints;
      EndpointEntriesOrigin(endpoints, parse, |endpoints|, p);
      var k, s :| 0 <= k < |endpoints| && 0 <= s < |endpoints[k].schemes|
        && p == Provider(endpoints[k].schemes[s], Endpoint(parse(endpoints[k].url).value, endpoints[k].discovery));
      assert table[i - 1].endpoints[k] == endpoints[k];
    }
  }

  // ---- find ----

  /** What the provider scan decides. */
  datatype Lookup = UseUrl(oembedUrl: string) | MatchError(e: Error) | Discover

  /** url.URL.String() for a url without fragment. */
  function UrlString(u: Url): string
  {
    if u.rawQuery == "" then u.withoutQuery else u.withoutQuery + "?" + u.rawQuery
  }

  /** The endpoint with its query replaced by `url=<escaped url>`. */
  function OEmbedUrl(endpoint: Url, url: string, escape: string -> string): (r: string)
    ensures r == endpoint.withoutQuery + "?url=" + escape(url)
  {
    UrlString(endpoint.(rawQuery := "url=" + escape(url)))
  }

  /** The scan of find, in table order. `matches` is filepath.Match. */
  function LookupIn(providers: seq<Provider>, url: string, matches: (string, string) -> Result<bool>, escape: string -> string): Lookup
  {
    if providers == [] then Discover
    else
      var p := providers[0];
      match matches(p.pattern, url)
      case Err(e) => MatchError(e)
      case Ok(ok) =>
        if !ok then LookupIn(providers[1..], url, matches, escape)
        else if p.endpoint.discovery then Discover
        else UseUrl(OEmbedUrl(p.endpoint.url, url, escape))
  }

  /** The first matching entry decides: its endpoint with the url as query,
    * or discovery when the endpoint asks for it. */
  lemma {:induction false} FirstMatchDecides(providers: seq<Provider>, url: string, matches: (string, string) -> Result<bool>,
                                             escape: string -> string, i: nat)
    requires i < |providers| && matches(providers[i].pattern, url) == Ok(true)
    requires forall j :: 0 <= j < i ==> matches(providers[j].pattern, url) == Ok(false)
    ensures LookupIn(providers, url, matches, escape)
      == if providers[i].endpoint.discovery then Discover else UseUrl(OEmbedUrl(providers[i].endpoint.url, url, escape))
  {
    if i > 0 {
      assert matches(providers[0].pattern, url) == Ok(false);
      forall j | 0 <= j < i - 1
        ensures matches(providers[1..][j].pattern, url) == Ok(false)
      {
        assert providers[1..][j] == providers[j + 1];
      }
      FirstMatchDecides(providers[1..], url, matches, escape, i - 1);
    }
  }

  /** With no entry matching and no pattern error, the page is searched. */
  lemma {:induction false} NoMatchDiscovers(providers: seq<Provider>, url: string, matches: (string, string) -> Result<bool>,
                                            escape: string -> string)
    requires forall j :: 0 <= j < |providers| ==> matches(providers[j].pattern, url) == Ok(false)
    ensures LookupIn(providers, url, matches, escape) == Discover
  {
    if providers != [] {
      assert matches(providers[0].pattern, url) == Ok(false);
      forall j | 0 <= j < |providers| - 1
        ensures matches(providers[1..][j].pattern, url) == Ok(false)
      {
        assert providers[1..][j] == providers[j + 1];
      }
      NoMatchDiscovers(providers[1..], url, matches, escape);
    }
  }

  // ---- discovery ----

  datatype NodeType = ErrorNode | TextNode | DocumentNode | ElementNode | CommentNode | DoctypeNode
  datatype Attribute = Attribute(key: string, val: string)

  /** An HTML node with its children in document order. */
  datatype Node = Node(kind: NodeType, data: string, attrs: seq<Attribute>, children: seq<Node>)

  /** Some `type` attribute ends in "+oembed". */
  predicate HasOEmbedType(attrs: seq<Attribute>)
  {
    exists i :: 0 <= i < |attrs| && attrs[i].key == "type" && HasSuffix(attrs[i].val, "+oembed")
  }

  /** The value of the first `href` attribute, "" when there is none. */
  function FirstHref(attrs: seq<Attribute>): (href: string)
    ensures (exists i :: 0 <= i < |attrs| && attrs[i].key == "href" && attrs[i].val == href
               && forall j :: 0 <= j < i ==> attrs[j].key != "href")
         || (href == "" && forall i :: 0 <= i < |attrs| ==> attrs[i].key != "href")
  {
    if attrs == [] then ""
    else if attrs[0].key == "href" then attrs[0].val
    else
      var h := FirstHref(attrs[1..]);
      assert forall i :: 0 < i < |attrs| ==> attrs[i] == attrs[1..][i - 1];
      h
  }

  /** findHref: the href of an oEmbed `<link>` element, "" for any other
    * node. */
  function HrefOf(n: Node): string
  {
    if n.kind != ElementNode || n.data != "link" then ""
    else if !HasOEmbedType(n.attrs) then ""
    else FirstHref(n.attrs)
  }

  /** findHref as written: two loops over the attributes. */
  method FindHref(n: Node) returns (href: string)
    ensures href == HrefOf(n)
  {
    if n.kind != ElementNode || n.data != "link" {
      return "";
    }
    var ok := false;
    var i := 0;
    while i < |n.attrs|
      invariant 0 <= i <= |n.attrs|
      invariant !ok ==> forall j :: 0 <= j < i ==> !(n.attrs[j].key == "type" && HasSuffix(n.attrs[j].val, "+oembed"))
      invariant ok ==> HasOEmbedType(n.attrs)
    {
      if n.attrs[i].key == "type" && HasSuffix(n.attrs[i].val, "+oembed") {
        ok := true;
        break;
      }
      i := i + 1;
    }
    if !ok {
      return "";
    }
    i := 0;
    while i < |n.attrs|
      invariant 0 <= i <= |n.attrs|
      invariant FirstHref(n.attrs[i..]) == FirstHref(n.attrs)
    {
      assert n.attrs[i..][0] == n.attrs[i] && n.attrs[i..][1..] == n.attrs[i + 1..];
      if n.attrs[i].key == "href" {
        return n.attrs[i].val;
      }
      i := i + 1;
    }
    return "";
  }

  /** discover's f: the node's own href, else the first non-empty one among
    * its children, searched depth first. */
  function Dfs(n: Node): string
    decreases n, 1
  {
    if HrefOf(n) != "" then HrefOf(n) else DfsList(n.children)
  }

  function DfsList(ns: seq<Node>): string
    decreases ns, 0
  {
    if ns == [] then ""
    else if Dfs(ns[0]) != "" then Dfs(ns[0])
    else DfsList(ns[1..])
  }

  /** The nodes of a tree in document (pre-)order. */
  function Preorder(n: Node): seq<Node>
    decreases n, 1
  {
    [n] + PreorderList(n.children)
  }

  function PreorderList(ns: seq<Node>): seq<Node>
    decreases ns, 0
  {
    if ns == [] then [] else Preorder(ns[0]) + PreorderList(ns[1..])
  }

  /** The first non-empty href among `nodes`. */
  function FirstHrefIn(nodes: seq<Node>): string
  {
    if nodes == [] then "" else if HrefOf(nodes[0]) != "" then HrefOf(nodes[0]) else FirstHrefIn(nodes[1..])
  }

  lemma {:induction false} FirstHrefInAppend(a: seq<Node>, b: seq<Node>)
    ensures FirstHrefIn(a + b) == if FirstHrefIn(a) != "" then FirstHrefIn(a) else FirstHrefIn(b)
  {
    if a != [] {
      assert (a + b)[0] == a[0] && (a + b)[1..] == a[1..] + b;
      FirstHrefInAppend(a[1..], b);
    } else {
      assert a + b == b;
    }
  }

  /** Discovery returns the first oEmbed href of the document in document
    * order, "" when there is none. */
  lemma {:induction false} DfsIsFirstInDocumentOrder(n: Node)
    ensures Dfs(n) == FirstHrefIn(Preorder(n))
    decreases n, 1
  {
    FirstHrefInAppend([n], PreorderList(n.children));
    DfsListIsFirst(n.children);
    assert ([n] + PreorderList(n.children))[1..] == PreorderList(n.children);
  }

  lemma {:induction false} DfsListIsFirst(ns: seq<Node>)
    ensures DfsList(ns) == FirstHrefIn(PreorderList(ns))
    decreases ns, 0
  {
    if ns != [] {
      DfsIsFirstInDocumentOrder(ns[0]);
      DfsListIsFirst(ns[1..]);
      FirstHrefInAppend(Preorder(ns[0]), PreorderList(ns[1..]));
    }
  }

  /** The search finds nothing exactly when no node has an href. */
  lemma {:induction false} FirstHrefInEmpty(nodes: seq<Node>)
    ensures FirstHrefIn(nodes) == "" <==> forall i :: 0 <= i < |nodes| ==> HrefOf(nodes[i]) == ""
  {
    if nodes != [] {
      FirstHrefInEmpty(nodes[1..]);
      assert forall i :: 0 < i < |nodes| ==> nodes[i] == nodes[1..][i - 1];
    }
  }

  /** A non-empty result is the href of a node that every earlier node
    * lacks. */
  lemma {:induction false} FirstHrefInFound(nodes: seq<Node>) returns (i: nat)
    requires FirstHrefIn(nodes) != ""
    ensures i < |nodes| && HrefOf(nodes[i]) == FirstHrefIn(nodes)
    ensures forall j :: 0 <= j < i ==> HrefOf(nodes[j]) == ""
  {
    if HrefOf(nodes[0]) != "" {
      return 0;
    }
    var k := FirstHrefInFound(nodes[1..]);
    assert forall j :: 0 < j <= k ==> nodes[j] == nodes[1..][j - 1];
    return k + 1;
  }

  /** A link found by discovery is the first oEmbed link of the page in
    * document order. */
  lemma DiscoveryFindsFirstLink(n: Node) returns (i: nat)
    requires Dfs(n) != ""
    ensures i < |Preorder(n)| && HrefOf(Preorder(n)[i]) == Dfs(n)
    ensures forall j :: 0 <= j < i ==> HrefOf(Preorder(n)[j]) == ""
  {
    DfsIsFirstInDocumentOrder(n);
    i := FirstHrefInFound(Preorder(n));
  }

  // ---- the client ----

  /** The outside world of a lookup: filepath.Match, the query escaping, the
    * fetched and parsed page of the url, and the fetch of an oEmbed url. */
  datatype Env = Env(
    matches: (string, string) -> Result<bool>,
    escape: string -> string,
    page: Result<Node>,
    fetch: string -> Result<string>)

  /** find: the table scan, then discovery. */
  function FindSpec(providers: seq<Provider>, url: string, env: Env): Result<string>
  {
    match LookupIn(providers, url, env.matches, env.escape)
    case UseUrl(u) => Ok(u)
    case MatchError(e) => Err(e)
    case Discover => if env.page.Err? then Err(env.page.error) else Ok(Dfs(env.page.value))
  }

  /** Get: no oEmbed url is an error; otherwise the body of its fetch. */
  function GetSpec(providers: seq<Provider>, url: string, env: Env): Result<string>
  {
    match FindSpec(providers, url, env)
    case Err(e) => Err(e)
    case Ok(u) => if u == "" then Err(Failure("couldn't find oembed URL")) else env.fetch(u)
  }

  class Client {
    const table: seq<ProviderResource>
    const parse: string -> Option<Url>
    /** Whether loadProvidersOnce has run. */
    var loaded: bool
    var providers: seq<Provider>

    /** The providers are the flattened table once loaded, none before. */
    predicate Valid()
      reads this
    {
      Parses(table, parse) && providers == (if loaded then Flatten(table, parse, |table|) else [])
    }

    /** NewClient; the table is the decoded providers JSON. */
    constructor (table: seq<ProviderResource>, parse: string -> Option<Url>)
      requires Parses(table, parse)
      ensures this.table == table && this.parse == parse
      ensures Valid() && !loaded
    {
      this.table := table;
      this.parse := parse;
      loaded := false;
      providers := [];
    }

    /** loadProviders: one entry per (provider, endpoint, scheme), appended
      * in table order. */
    method LoadProviders()
      requires Parses(table, parse)
      modifies this`providers
      ensures providers == old(providers) + Flatten(table, parse, |table|)
    {
      var i := 0;
      while i < |table|
        invariant 0 <= i <= |table|
        invariant providers == old(providers) + Flatten(table, parse, i)
      {
        var endpoints := table[i].endpoints;
        assert forall k :: 0 <= k < |endpoints| ==> parse(endpoints[k].url).Some?;
        AppendEndpoints(endpoints);
        assert Flatten(table, parse, i + 1) == Flatten(table, parse, i) + EndpointEntries(endpoints, parse, |endpoints|);
        i := i + 1;
      }
    }

    /** The loop over one provider's endpoints. */
    method AppendEndpoints(endpoints: seq<EndpointResource>)
      requires forall k :: 0 <= k < |endpoints| ==> parse(endpoints[k].url).Some?
      modifies this`providers
      ensures providers == old(providers) + EndpointEntries(endpoints, parse, |endpoints|)
    {
      var j := 0;
      while j < |endpoints|
        invariant 0 <= j <= |endpoints|
        invariant providers == old(providers) + EndpointEntries(endpoints, parse, j)
      {
        var e := endpoints[j];
        AppendSchemes(e, parse(e.url).value);
        j := j + 1;
      }
    }

    /** The loop over one endpoint's schemes. */
    method AppendSchemes(e: EndpointResource, u: Url)
      modifies this`providers
      ensures providers == old(providers) + SchemeEntries(e, u, |e.schemes|)
    {
      var k := 0;
      while k < |e.schemes|
        invariant 0 <= k <= |e.schemes|
        invariant providers == old(providers) + SchemeEntries(e, u, k)
      {
        providers := providers + [Provider(e.schemes[k], Endpoint(u, e.discovery))];
        k := k + 1;
      }
    }

    /** loadProvidersOnce.Do(loadProviders): only the first call loads. */
    method LoadOnce()
      requires Valid()
      modifies this
      ensures Valid() && loaded
      ensures old(loaded) ==> providers == old(providers)
    {
      if !loaded {
        LoadProviders();
        loaded := true;
      }
    }

    /** find */
    method Find(url: string, env: Env) returns (r: Result<string>)
      requires Valid()
      modifies this
      ensures Valid() && loaded
      ensures r == FindSpec(providers, url, env)
    {
      LoadOnce();
      var i := 0;
      while i < |providers|
        invariant 0 <= i <= |providers|
        invariant LookupIn(providers[i..], url, env.matches, env.escape) == LookupIn(providers, url, env.matches, env.escape)
      {
        var p := providers[i];
        assert providers[i..][0] == p && providers[i..][1..] == providers[i + 1..];
        var m := env.matches(p.pattern, url);
        if m.Err? {
          return Err(m.error);
        }
        if !m.value {
          i := i + 1;
          continue;
        }
        if p.endpoint.discovery {
          break;
        }
        return Ok(OEmbedUrl(p.endpoint.url, url, env.escape));
      }
      r := Discover(env);
    }

    /** discover: the page's parse error, or its first oEmbed href. */
    method Discover(env: Env) returns (r: Result<string>)
      ensures r == if env.page.Err? then Err(env.page.error) else Ok(Dfs(env.page.value))
    {
      if env.page.Err? {
        return Err(env.page.error);
      }
      return Ok(Dfs(env.page.value));
    }

    /** Get */
    method Get(url: string, env: Env) returns (r: Result<string>)
      requires Valid()
      modifies this
      ensures Valid() && loaded
      ensures r == GetSpec(providers, url, env)
    {
      var u := Find(url, env);
      if u.Err? {
        return Err(u.error);
      }
      if u.value == "" {
        return Err(Failure("couldn't find oembed URL"));
      }
      r := env.fetch(u.value);
    }
  }

  /** A page with no oEmbed link, reached by discovery, makes Get fail
    * without any fetch. */
  lemma NoLinkIsError(providers: seq<Provider>, url: string, env: Env)
    requires LookupIn(providers, url, env.matches, env.escape) == Discover
    requires env.page.Ok? && forall i :: 0 <= i < |Preorder(env.page.value)| ==> HrefOf(Preorder(env.page.value)[i]) == ""
    ensures GetSpec(providers, url, env) == Err(Failure("couldn't find oembed URL"))
  {
    DfsIsFirstInDocumentOrder(env.page.value);
    FirstHrefInEmpty(Preorder(env.page.value));
  }

  /** Get never returns an empty oEmbed url's fetch: it either fails or
    * fetches a non-empty url. */
  lemma GetFetchesNonEmpty(providers: seq<Provider>, url: string, env: Env)
    ensures GetSpec(providers, url, env).Ok? ==>
      exists u :: u != "" && FindSpec(providers, url, env) == Ok(u) && GetSpec(providers, url, env) == env.fetch(u)
  {
  }
}
