// The events a download streams (a log line, a failure, the path of the
// downloaded file) and the loop both generations run over them: every log
// line is stored in order, the last failure is the download's error and the
// last success its file.

module DownloadEvents {
  import opened Common

  datatype Event = LogEvent(line: string) | FailureEvent(err: Error) | SuccessEvent(path: string)

  /** The loop's two variables, `path` and `err`. */
  datatype Fold = Fold(path: string, err: Option<Error>)

  /** One turn of the loop's switch. */
  function Step(f: Fold, ev: Event): Fold
  {
    match ev
    case LogEvent(_) => f
    case FailureEvent(e) => f.(err := Some(e))
    case SuccessEvent(p) => f.(path := p)
  }

  /** The variables after the loop has seen `evs`. */
  function FoldEvents(evs: seq<Event>): Fold
  {
    if evs == [] then Fold("", None) else Step(FoldEvents(evs[..|evs| - 1]), evs[|evs| - 1])
  }

  /** The log lines of `evs`, in order. */
  function LogLines(evs: seq<Event>): (lines: seq<string>)
    ensures |lines| <= |evs|
  {
    if evs == [] then []
    else LogLines(evs[..|evs| - 1]) + (if evs[|evs| - 1].LogEvent? then [evs[|evs| - 1].line] else [])
  }

  /** No failure among the events from index `from` on. */
  predicate NoFailureFrom(evs: seq<Event>, from: int)
  {
    forall j :: from <= j < |evs| && 0 <= j ==> !evs[j].FailureEvent?
  }

  /** No success among the events from index `from` on. */
  predicate NoSuccessFrom(evs: seq<Event>, from: int)
  {
    forall j :: from <= j < |evs| && 0 <= j ==> !evs[j].SuccessEvent?
  }

  /** The error is none exactly when no failure was streamed. */
  lemma {:induction false} FoldErrorNone(evs: seq<Event>)
    ensures FoldEvents(evs).err.None? <==> NoFailureFrom(evs, 0)
  {
    if evs != [] {
      var init := evs[..|evs| - 1];
      FoldErrorNone(init);
      assert NoFailureFrom(evs, 0) <==> NoFailureFrom(init, 0) && !evs[|evs| - 1].FailureEvent? by {
        assert forall i :: 0 <= i < |init| ==> init[i] == evs[i];
      }
    }
  }

  /** The error is that of the failure no other failure follows. */
  lemma {:induction false} FoldErrorIsLastFailure(evs: seq<Event>, i: nat)
    requires i < |evs| && evs[i].FailureEvent? && NoFailureFrom(evs, i + 1)
    ensures FoldEvents(evs).err == Some(evs[i].err)
  {
    var init := evs[..|evs| - 1];
    if i < |evs| - 1 {
      assert init[i] == evs[i];
      assert NoFailureFrom(init, i + 1) by {
        assert forall j :: 0 <= j < |init| ==> init[j] == evs[j];
      }
      FoldErrorIsLastFailure(init, i);
    }
  }

  /** The path is empty when no success was streamed. */
  lemma {:induction false} FoldPathEmpty(evs: seq<Event>)
    requires NoSuccessFrom(evs, 0)
    ensures FoldEvents(evs).path == ""
  {
    if evs != [] {
      var init := evs[..|evs| - 1];
      assert NoSuccessFrom(init, 0) by {
        assert forall j :: 0 <= j < |init| ==> init[j] == evs[j];
      }
      FoldPathEmpty(init);
    }
  }

  /** The path is that of the success no other success follows. */
  lemma {:induction false} FoldPathIsLastSuccess(evs: seq<Event>, i: nat)
    requires i < |evs| && evs[i].SuccessEvent? && NoSuccessFrom(evs, i + 1)
    ensures FoldEvents(evs).path == evs[i].path
  {
    var init := evs[..|evs| - 1];
    if i < |evs| - 1 {
      assert init[i] == evs[i];
      assert NoSuccessFrom(init, i + 1) by {
        assert forall j :: 0 <= j < |init| ==> init[j] == evs[j];
      }
      FoldPathIsLastSuccess(init, i);
    }
  }

  /** Log lines are kept in order and only log events give lines: the lines
    * of two streams one after the other are the lines of the first, then
    * those of the second. */
  lemma {:induction false} LogLinesAppend(a: seq<Event>, b: seq<Event>)
    ensures LogLines(a + b) == LogLines(a) + LogLines(b)
    decreases |b|
  {
    if b != [] {
      var b' := b[..|b| - 1];
      assert (a + b)[..|a + b| - 1] == a + b';
      LogLinesAppend(a, b');
    } else {
      assert a + b == a;
    }
  }
}
