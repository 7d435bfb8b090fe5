// The browser front end's state (the Video and VideoList React components):
// which requests each component issues and how a reply changes its state.
// Rendering, the timer itself and the promise plumbing are not modelled: a
// timer tick and the arrival of a reply are methods the environment calls.
// API_URL is a parameter.

module Frontend {
  import opened Common

  /** A url record as the server sends it, reduced to what the components
    * read. */
  datatype VideoRecord = VideoRecord(id: int, status: string, url: string)

  /** A request issued with fetch. */
  datatype Fetch = Fetch(verb: string, url: string, body: Option<string>)

  /** The refresh period, in milliseconds. */
  const RefreshMs := 1000

  /** The statuses under which a row keeps polling. */
  predicate Polling(status: string)
  {
    status == "pending" || status == "processing"
  }

  /** The request a row issues on each tick. */
  function StatusFetch(apiUrl: string, id: int): (f: Fetch)
    ensures f.verb == "GET" && f.body.None? && HasSuffix(f.url, IntString(id))
  {
    var f := Fetch("GET", apiUrl + "/urls/" + IntString(id), None);
    assert f.url[|f.url| - |IntString(id)|..] == IntString(id);
    f
  }

  /** One row of the list: it polls its url's status until the status is
    * neither pending nor processing. */
  class Video {
    const apiUrl: string
    const video: VideoRecord
    var status: string
    /** The period of the running refresh timer, if any. */
    var interval: Option<int>
    var fetches: seq<Fetch>

    /** Every request the row issues asks for its own url. */
    predicate Valid()
      reads this
    {
      forall i :: 0 <= i < |fetches| ==> fetches[i] == StatusFetch(apiUrl, video.id)
    }

    /** The initial status comes from the video prop. */
    constructor (apiUrl: string, video: VideoRecord)
      ensures this.apiUrl == apiUrl && this.video == video
      ensures status == video.status && interval == None && fetches == []
      ensures Valid()
    {
      this.apiUrl := apiUrl;
      this.video := video;
      status := video.status;
      interval := None;
      fetches := [];
    }

    /** componentDidMount: a refresh every second. */
    method ComponentDidMount()
      modifies this`interval
      ensures interval == Some(RefreshMs)
    {
      interval := Some(RefreshMs);
    }

    /** componentWillUnmount */
    method ComponentWillUnmount()
      modifies this`interval
      ensures interval == None
    {
      interval := None;
    }

    /** refresh: a settled status stops the timer and fetches nothing;
      * otherwise exactly one request for the url is issued. */
    method Refresh()
      requires Valid()
      modifies this`interval, this`fetches
      ensures Valid()
      ensures !Polling(status) ==> interval == None && fetches == old(fetches)
      ensures Polling(status) ==> interval == old(interval) && fetches == old(fetches) + [StatusFetch(apiUrl, video.id)]
    {
      if status != "pending" && status != "processing" {
        interval := None;
        return;
      }
      fetches := fetches + [StatusFetch(apiUrl, video.id)];
    }

    /** The reply to a refresh replaces the status and nothing else. */
    method Receive(reply: VideoRecord)
      modifies this`status
      ensures status == reply.status
    {
      status := reply.status;
    }
  }

  /** The body JSON.stringify({url: value}) produces; `quote` is the JSON
    * string encoding. */
  function UrlBody(value: string, quote: string -> string): (body: string)
    ensures HasPrefix(body, "{\"url\":") && body[|body| - 1] == '}'
  {
    var body := "{\"url\":" + quote(value) + "}";
    assert body[..7] == "{\"url\":";
    body
  }

  /** The list of urls with its input form. */
  class VideoList {
    const apiUrl: string
    var list: seq<VideoRecord>
    var fetches: seq<Fetch>

    /** The list starts empty. */
    constructor (apiUrl: string)
      ensures this.apiUrl == apiUrl && list == [] && fetches == []
    {
      this.apiUrl := apiUrl;
      list := [];
      fetches := [];
    }

    /** componentDidMount: GET /urls. */
    method ComponentDidMount()
      modifies this`fetches
      ensures fetches == old(fetches) + [Fetch("GET", apiUrl + "/urls", None)]
    {
      fetches := fetches + [Fetch("GET", apiUrl + "/urls", None)];
    }

    /** The reply to the mount request, read as a bare array, replaces the
      * list wholesale. */
    method Loaded(reply: seq<VideoRecord>)
      modifies this`list
      ensures list == reply
    {
      list := reply;
    }

    /** handleSubmit: POST the input's value as it is, empty or not. */
    method HandleSubmit(value: string, quote: string -> string)
      modifies this`fetches
      ensures fetches == old(fetches) + [Fetch("POST", apiUrl + "/urls", Some(UrlBody(value, quote)))]
    {
      fetches := fetches + [Fetch("POST", apiUrl + "/urls", Some(UrlBody(value, quote)))];
    }

    /** The created record goes in front of the list as it stands when the
      * reply arrives; nothing is removed, even a record with the same id. */
    method Created(reply: VideoRecord)
      modifies this`list
      ensures list == [reply] + old(list)
      ensures |list| == |old(list)| + 1 && list[0] == reply
      ensures forall i :: 0 <= i < |old(list)| ==> list[i + 1] == old(list)[i]
    {
      list := [reply] + list;
    }
  }
}
