// The part of net/http the handlers rely on: status texts, the response a
// client receives, and a response writer that sends the status line once
// (with the first WriteHeader, or as 200 with the first Write) and appends
// every Write to the body. A handler's writes are modelled as a sequence of
// operations so that the middleware can replay them.

module Http {
  import opened Common

  const StatusOK := 200
  const StatusCreated := 201
  const StatusNoContent := 204
  const StatusBadRequest := 400
  const StatusNotFound := 404
  const StatusMethodNotAllowed := 405
  const StatusInternalServerError := 500

  /** http.StatusText for the codes the servers use; "" for any other. */
  function StatusText(code: int): string
  {
    if code == StatusOK then "OK"
    else if code == StatusCreated then "Created"
    else if code == StatusNoContent then "No Content"
    else if code == StatusBadRequest then "Bad Request"
    else if code == StatusNotFound then "Not Found"
    else if code == StatusMethodNotAllowed then "Method Not Allowed"
    else if code == StatusInternalServerError then "Internal Server Error"
    else ""
  }

  /** The request fields the routers and the log middleware read; `verb` is r.Method. */
  datatype Request = Request(verb: string, path: string)

  /** One call a handler makes on its http.ResponseWriter. */
  datatype Op = SetHeader(key: string, value: string) | WriteHeader(code: int) | Write(data: string)

  /** What the client receives: the header the handler set before the
    * status line (net/http's content sniffing is not modelled), the status
    * (0 while none was sent) and the body. */
  datatype Response = Response(header: map<string, string>, status: int, body: string)

  const Fresh := Response(map[], 0, "")

  /** The status an operation sends when none was sent before it. */
  function OpStatus(op: Op): int
  {
    match op
    case SetHeader(_, _) => 0
    case WriteHeader(code) => code
    case Write(_) => StatusOK
  }

  /** One operation on the response: a header set after the status line is
    * not sent; a second WriteHeader is superfluous; Write sends 200 first
    * when no status was sent. */
  function Apply(r: Response, op: Op): (r': Response)
    ensures r'.status == (if r.status == 0 then OpStatus(op) else r.status)
    ensures r'.body == r.body + (if op.Write? then op.data else "")
    ensures r.status != 0 ==> r'.header == r.header
  {
    match op
    case SetHeader(k, v) => if r.status == 0 then r.(header := r.header[k := v]) else r
    case WriteHeader(code) => if r.status == 0 then r.(status := code) else r
    case Write(data) => r.(status := if r.status == 0 then StatusOK else r.status, body := r.body + data)
  }

  /** The operations applied in order. */
  function ApplyAll(r: Response, ops: seq<Op>): Response
  {
    if ops == [] then r else Apply(ApplyAll(r, ops[..|ops| - 1]), ops[|ops| - 1])
  }

  lemma ApplyAllSnoc(r: Response, ops: seq<Op>, op: Op)
    ensures ApplyAll(r, ops + [op]) == Apply(ApplyAll(r, ops), op)
  {
    assert (ops + [op])[..|ops|] == ops;
  }

  lemma ApplyAll2(r: Response, a: Op, b: Op)
    ensures ApplyAll(r, [a, b]) == Apply(Apply(r, a), b)
  {
    assert [a, b][..1] == [a] && [a][..0] == [];
    assert ApplyAll(r, []) == r;
    assert ApplyAll(r, [a]) == Apply(r, a);
  }

  lemma ApplyAll3(r: Response, a: Op, b: Op, c: Op)
    ensures ApplyAll(r, [a, b, c]) == Apply(Apply(Apply(r, a), b), c)
  {
    assert [a, b, c][..2] == [a, b];
    ApplyAll2(r, a, b);
  }

  /** The status of the first operation that sends one, 0 when none does. */
  function FirstStatus(ops: seq<Op>): int
  {
    if ops == [] then 0
    else if OpStatus(ops[0]) != 0 then OpStatus(ops[0])
    else FirstStatus(ops[1..])
  }

  /** FirstStatus is the status of the earliest operation sending one. */
  lemma {:induction false} FirstStatusIsFirst(ops: seq<Op>)
    ensures FirstStatus(ops) != 0 <==> exists i :: 0 <= i < |ops| && OpStatus(ops[i]) != 0
    ensures forall i :: (0 <= i < |ops| && OpStatus(ops[i]) != 0 && (forall j :: 0 <= j < i ==> OpStatus(ops[j]) == 0)
      ==> FirstStatus(ops) == OpStatus(ops[i]))
  {
    if ops != [] {
      FirstStatusIsFirst(ops[1..]);
      forall i | 0 <= i < |ops| && OpStatus(ops[i]) != 0 && (forall j :: 0 <= j < i ==> OpStatus(ops[j]) == 0)
        ensures FirstStatus(ops) == OpStatus(ops[i])
      {
        if i > 0 {
          assert ops[1..][i - 1] == ops[i];
          assert forall j :: 0 <= j < i - 1 ==> ops[1..][j] == ops[j + 1];
        }
      }
      if OpStatus(ops[0]) == 0 && exists i :: 0 <= i < |ops| && OpStatus(ops[i]) != 0 {
        var i :| 0 <= i < |ops| && OpStatus(ops[i]) != 0;
        assert ops[1..][i - 1] == ops[i];
      }
    }
  }

  /** Appending an operation changes the first status only if none was sent. */
  lemma {:induction false} FirstStatusSnoc(ops: seq<Op>, op: Op)
    ensures FirstStatus(ops + [op]) == (if FirstStatus(ops) != 0 then FirstStatus(ops) else OpStatus(op))
  {
    if ops != [] {
      assert (ops + [op])[1..] == ops[1..] + [op];
      FirstStatusSnoc(ops[1..], op);
    }
  }

  /** The status the client receives from a fresh response is the first one
    * any operation sent: later WriteHeaders never change it. */
  lemma {:induction false} StatusIsFirstSent(ops: seq<Op>)
    ensures ApplyAll(Fresh, ops).status == FirstStatus(ops)
  {
    if ops != [] {
      var init := ops[..|ops| - 1];
      StatusIsFirstSent(init);
      assert init + [ops[|ops| - 1]] == ops;
      FirstStatusSnoc(init, ops[|ops| - 1]);
    }
  }

  /** The body is every Write's data in order. */
  function Written(ops: seq<Op>): string
  {
    if ops == [] then ""
    else Written(ops[..|ops| - 1]) + (if ops[|ops| - 1].Write? then ops[|ops| - 1].data else "")
  }

  lemma {:induction false} BodyIsWritten(r: Response, ops: seq<Op>)
    ensures ApplyAll(r, ops).body == r.body + Written(ops)
  {
    if ops != [] {
      BodyIsWritten(r, ops[..|ops| - 1]);
    }
  }

  /** http.Error: a plain-text reply whose body is the text and a newline. */
  function ErrorOps(text: string, code: int): seq<Op>
  {
    [SetHeader("Content-Type", "text/plain; charset=utf-8"), SetHeader("X-Content-Type-Options", "nosniff"),
     WriteHeader(code), Write(text + "\n")]
  }

  /** On a fresh response http.Error sends its code, a plain-text header and
    * the text. */
  lemma ErrorReply(text: string, code: int)
    requires code != 0
    ensures var r := ApplyAll(Fresh, ErrorOps(text, code));
      r.status == code && r.body == text + "\n"
      && "Content-Type" in r.header && r.header["Content-Type"] == "text/plain; charset=utf-8"
  {
    ErrorOpsSteps(Fresh, text, code);
  }

  lemma ErrorOpsSteps(r: Response, text: string, code: int)
    ensures ApplyAll(r, ErrorOps(text, code))
      == Apply(Apply(Apply(Apply(r, SetHeader("Content-Type", "text/plain; charset=utf-8")),
                           SetHeader("X-Content-Type-Options", "nosniff")), WriteHeader(code)), Write(text + "\n"))
  {
    var ops := ErrorOps(text, code);
    assert ApplyAll(r, ops[..1]) == Apply(r, ops[0]) by { assert ops[..1][..0] == []; }
    assert ApplyAll(r, ops[..2]) == Apply(ApplyAll(r, ops[..1]), ops[1]) by { assert ops[..2][..1] == ops[..1]; }
    assert ApplyAll(r, ops[..3]) == Apply(ApplyAll(r, ops[..2]), ops[2]) by { assert ops[..3][..2] == ops[..2]; }
    assert ApplyAll(r, ops) == Apply(ApplyAll(r, ops[..3]), ops[3]);
  }

  /** An http.ResponseWriter; `response` is what the client has received. */
  class Writer {
    var response: Response

    constructor ()
      ensures response == Fresh
    {
      response := Fresh;
    }

    method SetHeader(key: string, value: string)
      modifies this
      ensures response == Apply(old(response), Op.SetHeader(key, value))
    {
      if response.status == 0 {
        response := response.(header := response.header[key := value]);
      }
    }

    method WriteHeader(code: int)
      modifies this
      ensures response == Apply(old(response), Op.WriteHeader(code))
    {
      if response.status == 0 {
        response := response.(status := code);
      }
    }

    method Write(data: string)
      modifies this
      ensures response == Apply(old(response), Op.Write(data))
    {
      if response.status == 0 {
        response := response.(status := StatusOK);
      }
      response := response.(body := response.body + data);
    }

    method Perform(op: Op)
      modifies this
      ensures response == Apply(old(response), op)
    {
      match op
      case SetHeader(k, v) => SetHeader(k, v);
      case WriteHeader(code) => WriteHeader(code);
      case Write(data) => Write(data);
    }

    /** http.Error */
    method Error(text: string, code: int)
      modifies this
      ensures response == ApplyAll(old(response), ErrorOps(text, code))
    {
      ErrorOpsSteps(old(response), text, code);
      SetHeader("Content-Type", "text/plain; charset=utf-8");
      SetHeader("X-Content-Type-Options", "nosniff");
      WriteHeader(code);
      Write(text + "\n");
    }
  }
}
