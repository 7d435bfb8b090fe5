// The reliable queue of the api generation (api/broker/broker.go).
//
// A received payload is moved atomically from the tail of the queue to the
// head of the queue's temporary list, handled, then removed from the
// temporary list whatever happened; a handler that fails or panics has the
// payload pushed onto the queue's failed list. The handler is a parameter
// giving the completion of the call for each payload; what it does besides
// is modelled where the handlers are.

module ApiBroker {
  import opened Common
  import opened RedisLists

  /** herr after the deferred recover: a panic becomes an error with the
    * panic's text. */
  function HandlerError(c: Completion): (r: Option<Error>)
    ensures c.Panic? ==> r == Some(Failure(c.msg))
    ensures c.Return? ==> r == c.err
  {
    match c
    case Return(e) => e
    case Panic(m) => Some(Failure(m))
  }

  /** The lists after a Receive that took a payload: the tail of the queue
    * moved to the temporary list, pushed to the failed list when
    * `pushFailed`, then removed from the temporary list when `removed`. */
  function AfterReceive(lists: map<string, seq<string>>, queue: string, pushFailed: bool, removed: bool): map<string, seq<string>>
    requires List(lists, queue) != []
  {
    var s := List(lists, queue);
    var p := s[|s| - 1];
    var popped := lists[queue := s[..|s| - 1]][TmpQueue(queue) := [p] + List(lists, TmpQueue(queue))];
    var pushed := if pushFailed then popped[FailedQueue(queue) := [p] + List(popped, FailedQueue(queue))] else popped;
    if removed then pushed[TmpQueue(queue) := RemoveFirst(List(pushed, TmpQueue(queue)), p)] else pushed
  }

  /** What a Receive does to each list. */
  lemma ReceiveEffect(lists: map<string, seq<string>>, queue: string, pushFailed: bool, removed: bool)
    requires List(lists, queue) != []
    ensures var s := List(lists, queue);
      var p := s[|s| - 1];
      var after := AfterReceive(lists, queue, pushFailed, removed);
      List(after, queue) == s[..|s| - 1]
      && List(after, TmpQueue(queue)) == (if removed then [] else [p]) + List(lists, TmpQueue(queue))
      && List(after, FailedQueue(queue)) == (if pushFailed then [p] else []) + List(lists, FailedQueue(queue))
      && OthersUnchanged(lists, after, {queue, TmpQueue(queue), FailedQueue(queue)})
  {
    QueueNamesDistinct(queue);
    var s := List(lists, queue);
    var p := s[|s| - 1];
    var tmp, failed := TmpQueue(queue), FailedQueue(queue);
    var popped := lists[queue := s[..|s| - 1]][tmp := [p] + List(lists, tmp)];
    assert List(popped, failed) == List(lists, failed);
    var pushed := if pushFailed then popped[failed := [p] + List(popped, failed)] else popped;
    assert List(pushed, tmp) == [p] + List(lists, tmp);
    assert List(pushed, queue) == s[..|s| - 1];
    assert List(pushed, failed) == (if pushFailed then [p] else []) + List(lists, failed);
    PushThenRemove(List(lists, tmp), p);
  }

  /** The lists once one occurrence of `payload` was removed from the
    * queue's failed list (LREM count 1). */
  function Unfailed(lists: map<string, seq<string>>, queue: string, payload: string): map<string, seq<string>>
  {
    lists[FailedQueue(queue) := RemoveFirst(List(lists, FailedQueue(queue)), payload)]
  }

  /** Removing a payload that a failed Receive has just pushed onto the
    * failed list gives that list back as it was before the Receive. */
  lemma UnfailedUndoesFailure(lists: map<string, seq<string>>, queue: string)
    requires List(lists, queue) != []
    ensures var s := List(lists, queue);
      var after := Unfailed(AfterReceive(lists, queue, true, true), queue, s[|s| - 1]);
      List(after, FailedQueue(queue)) == List(lists, FailedQueue(queue))
      && List(after, TmpQueue(queue)) == List(lists, TmpQueue(queue))
  {
    var s := List(lists, queue);
    ReceiveEffect(lists, queue, true, true);
    QueueNamesDistinct(queue);
    PushThenRemove(List(lists, FailedQueue(queue)), s[|s| - 1]);
  }

  class Broker {
    const redis: Redis

    constructor (r: Redis)
      ensures redis == r
    {
      redis := r;
    }

    /** Send: LPUSH onto the queue's head. */
    method Send(queue: string, payload: string) returns (err: Option<Error>)
      modifies redis
      ensures redis.faults == old(redis.faults)
      ensures LPushCmd in redis.faults ==> err == Some(redis.faults[LPushCmd]) && redis.lists == old(redis.lists)
      ensures LPushCmd !in redis.faults ==>
        err.None? && redis.lists == old(redis.lists)[queue := [payload] + old(redis.Get(queue))]
    {
      err := redis.LPush(queue, payload);
    }

    /** Receive: always nil once a payload was taken (and on an empty
      * queue); the payload ends in the failed list when the handler fails
      * or panics, and the temporary list is back to what it held unless its
      * LREM failed. */
    method Receive(queue: string, handler: string -> Completion) returns (err: Option<Error>)
      modifies redis
      ensures redis.faults == old(redis.faults)
      ensures BRPopLPushCmd in redis.faults ==>
        (err == (if redis.faults[BRPopLPushCmd] == RedisNil then None else Some(redis.faults[BRPopLPushCmd]))
         && redis.lists == old(redis.lists))
      ensures BRPopLPushCmd !in redis.faults && old(redis.Get(queue)) == [] ==> err.None? && redis.lists == old(redis.lists)
      ensures BRPopLPushCmd !in redis.faults && old(redis.Get(queue)) != [] ==>
        (var s := old(redis.Get(queue));
         var p := s[|s| - 1];
         err.None?
         && redis.lists == AfterReceive(old(redis.lists), queue,
              HandlerError(handler(p)).Some? && LPushCmd !in redis.faults, LRemCmd !in redis.faults)
         && redis.Get(queue) == s[..|s| - 1]
         && redis.Get(TmpQueue(queue)) == (if LRemCmd in redis.faults then [p] else []) + old(redis.Get(TmpQueue(queue)))
         && redis.Get(FailedQueue(queue))
            == (if HandlerError(handler(p)).Some? && LPushCmd !in redis.faults then [p] else []) + old(redis.Get(FailedQueue(queue)))
         && OthersUnchanged(old(redis.lists), redis.lists, {queue, TmpQueue(queue), FailedQueue(queue)}))
    {
      QueueNamesDistinct(queue);
      var tmp := TmpQueue(queue);
      ghost var before := redis.lists;
      var popped := redis.BRPopLPush(queue, tmp);
      if popped.Err? {
        if popped.error == RedisNil {
          return None;
        }
        return Some(popped.error);
      }
      var payload := popped.value;
      var herr := HandlerError(handler(payload));
      // The deferred calls run last-registered first: the failed push, then
      // the LREM of the temporary list. Their errors are only logged.
      if herr.Some? {
        var _ := Send(FailedQueue(queue), payload);
      }
      var _ := redis.LRem(tmp, payload);
      err := None;
      ReceiveEffect(before, queue, herr.Some? && LPushCmd !in redis.faults, LRemCmd !in redis.faults);
    }

    /** PopNextFailed: RPOP of the failed list, so the oldest failure comes
      * first. */
    method PopNextFailed(queue: string) returns (r: Result<string>)
      modifies redis
      ensures redis.faults == old(redis.faults)
      ensures RPopCmd in redis.faults ==> r == Err(redis.faults[RPopCmd]) && redis.lists == old(redis.lists)
      ensures RPopCmd !in redis.faults && old(redis.Get(FailedQueue(queue))) == [] ==>
        r == Err(RedisNil) && redis.lists == old(redis.lists)
      ensures RPopCmd !in redis.faults && old(redis.Get(FailedQueue(queue))) != [] ==>
        (var s := old(redis.Get(FailedQueue(queue)));
         r == Ok(s[|s| - 1]) && redis.lists == old(redis.lists)[FailedQueue(queue) := s[..|s| - 1]])
    {
      r := redis.RPop(FailedQueue(queue));
    }

    /** RemFailed, which api/service/retrier.go:24 requires of its broker but
      * api/broker/broker.go does not define: LREM of one occurrence of the
      * payload from the failed list, as Receive does on the temporary list. */
    method RemFailed(queue: string, payload: string) returns (err: Option<Error>)
      modifies redis
      ensures redis.faults == old(redis.faults)
      ensures LRemCmd in redis.faults ==> err == Some(redis.faults[LRemCmd]) && redis.lists == old(redis.lists)
      ensures LRemCmd !in redis.faults ==> err.None? && redis.lists == Unfailed(old(redis.lists), queue, payload)
    {
      err := redis.LRem(FailedQueue(queue), payload);
    }
  }
}
