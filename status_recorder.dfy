// The logging middleware of both generations (api/server/middleware/log.go
// and server/server.go, which are the same code): the handler writes through a
// wrapper that forwards every call and remembers the first status sent, and
// once the handler returns the request is logged with that status.

module StatusRecorder {
  import opened Common
  import opened Http

  /** The code the recorder holds after an operation: the first status sent
    * is kept. */
  function NextCode(code: int, op: Op): int
  {
    if code != 0 then code else OpStatus(op)
  }

  /** The entry logged for a request: "METHOD path" with the recorded code. */
  datatype LogEntry = LogEntry(msg: string, code: int)

  /** responseWriter: an http.ResponseWriter that records the status. */
  class Recorder {
    const w: Writer
    var code: int

    constructor (w: Writer)
      ensures this.w == w && code == 0
    {
      this.w := w;
      code := 0;
    }

    /** The recorded code is the status the client received. */
    predicate Synced()
      reads this, w
    {
      code == w.response.status
    }

    /** WriteHeader is always forwarded; only the first one is recorded. */
    method WriteHeader(c: int)
      modifies this, w
      ensures w.response == Apply(old(w.response), Op.WriteHeader(c))
      ensures code == NextCode(old(code), Op.WriteHeader(c))
      ensures old(Synced()) ==> Synced()
    {
      w.WriteHeader(c);
      if code != 0 {
        return;
      }
      code := c;
    }

    /** Write with no status recorded first records 200. */
    method Write(data: string)
      modifies this, w
      ensures w.response == Apply(old(w.response), Op.Write(data))
      ensures code == NextCode(old(code), Op.Write(data))
      ensures old(Synced()) ==> Synced()
    {
      if code == 0 {
        WriteHeader(StatusOK);
      }
      w.Write(data);
    }

    /** Header().Set goes to the wrapped writer. */
    method SetHeader(key: string, value: string)
      modifies w
      ensures w.response == Apply(old(w.response), Op.SetHeader(key, value))
      ensures old(Synced()) ==> Synced()
    {
      w.SetHeader(key, value);
    }
  }

  /** Log: the handler's operations go through a fresh recorder; the entry is
    * made after the last of them. The duration field is not modelled. */
  method Log(w: Writer, r: Request, handler: seq<Op>) returns (entry: LogEntry)
    modifies w
    ensures w.response == ApplyAll(old(w.response), handler)
    ensures entry == LogEntry(r.verb + " " + r.path, FirstStatus(handler))
  {
    var rw := new Recorder(w);
    var i := 0;
    while i < |handler|
      invariant 0 <= i <= |handler|
      invariant rw.w == w
      invariant w.response == ApplyAll(old(w.response), handler[..i])
      invariant rw.code == FirstStatus(handler[..i])
    {
      ApplyAllSnoc(old(w.response), handler[..i], handler[i]);
      FirstStatusSnoc(handler[..i], handler[i]);
      assert handler[..i + 1] == handler[..i] + [handler[i]];
      var op := handler[i];
      if op.SetHeader? {
        rw.SetHeader(op.key, op.value);
      } else if op.WriteHeader? {
        rw.WriteHeader(op.code);
      } else {
        rw.Write(op.data);
      }
      i := i + 1;
    }
    assert handler[..i] == handler;
    entry := LogEntry(r.verb + " " + r.path, rw.code);
  }

  /** On a fresh response the logged code is the status the client
    * received, and it is 0 exactly when the handler sent nothing. */
  lemma LoggedIsSent(handler: seq<Op>)
    ensures FirstStatus(handler) == ApplyAll(Fresh, handler).status
    ensures FirstStatus(handler) == 0 <==> forall i :: 0 <= i < |handler| ==> OpStatus(handler[i]) == 0
  {
    StatusIsFirstSent(handler);
    FirstStatusIsFirst(handler);
  }

  /** A WriteHeader after the first status changes neither the record nor
    * the response's status. */
  lemma LaterHeaderIgnored(handler: seq<Op>, c: int)
    requires FirstStatus(handler) != 0
    ensures FirstStatus(handler + [Op.WriteHeader(c)]) == FirstStatus(handler)
    ensures ApplyAll(Fresh, handler + [Op.WriteHeader(c)]).status == ApplyAll(Fresh, handler).status
  {
    FirstStatusSnoc(handler, Op.WriteHeader(c));
    StatusIsFirstSent(handler);
    StatusIsFirstSent(handler + [Op.WriteHeader(c)]);
  }
}
