// The queue of the first generation (broker/broker.go). It moves payloads
// between the same lists as the api broker, with two differences: a handler
// panic is not recovered, so it leaves Receive (after the deferred LREM of
// the temporary list) and the payload is not pushed to the failed list; and
// after a handler error Receive returns the error of that push.

module LegacyBroker {
  import opened Common
  import opened RedisLists
  import opened ApiBroker

  class Broker {
    const redis: Redis

    constructor (r: Redis)
      ensures redis == r
    {
      redis := r;
    }

    /** Send: LPUSH onto the queue's head. */
    method Send(queue: string, payload: string) returns (err: Option<Error>)
      modifies redis
      ensures redis.faults == old(redis.faults)
      ensures LPushCmd in redis.faults ==> err == Some(redis.faults[LPushCmd]) && redis.lists == old(redis.lists)
      ensures LPushCmd !in redis.faults ==>
        err.None? && redis.lists == old(redis.lists)[queue := [payload] + old(redis.Get(queue))]
    {
      err := redis.LPush(queue, payload);
    }

    /** Receive: the completion is the caller's; a panic of the handler is
      * the completion of Receive too. */
    method Receive(queue: string, handler: string -> Completion) returns (c: Completion)
      modifies redis
      ensures redis.faults == old(redis.faults)
      ensures BRPopLPushCmd in redis.faults ==>
        (c == Return(if redis.faults[BRPopLPushCmd] == RedisNil then None else Some(redis.faults[BRPopLPushCmd]))
         && redis.lists == old(redis.lists))
      ensures BRPopLPushCmd !in redis.faults && old(redis.Get(queue)) == [] ==> c == Return(None) && redis.lists == old(redis.lists)
      ensures BRPopLPushCmd !in redis.faults && old(redis.Get(queue)) != [] ==>
        (var s := old(redis.Get(queue));
         var p := s[|s| - 1];
         var pushFailed := handler(p).Return? && handler(p).err.Some?;
         redis.lists == AfterReceive(old(redis.lists), queue, pushFailed && LPushCmd !in redis.faults, LRemCmd !in redis.faults)
         && (handler(p).Panic? ==> c == handler(p))
         && (handler(p) == Return(None) ==> c == Return(None))
         && (pushFailed ==> c == Return(if LPushCmd in redis.faults then Some(redis.faults[LPushCmd]) else None)))
    {
      QueueNamesDistinct(queue);
      var tmp := TmpQueue(queue);
      ghost var before := redis.lists;
      var popped := redis.BRPopLPush(queue, tmp);
      if popped.Err? {
        if popped.error == RedisNil {
          return Return(None);
        }
        return Return(Some(popped.error));
      }
      var payload := popped.value;
      var outcome := handler(payload);
      if outcome == Return(None) {
        c := Return(None);
      } else if outcome.Return? {
        var err := Send(FailedQueue(queue), payload);
        c := Return(err);
      } else {
        c := outcome;
      }
      // The deferred LREM runs on every way out, the panic included.
      var _ := redis.LRem(tmp, payload);
      ReceiveEffect(before, queue, outcome.Return? && outcome.err.Some? && LPushCmd !in redis.faults, LRemCmd !in redis.faults);
    }

    /** PopLastFailed: RPOP of the failed list. */
    method PopLastFailed(queue: string) returns (r: Result<string>)
      modifies redis
      ensures redis.faults == old(redis.faults)
      ensures RPopCmd in redis.faults ==> r == Err(redis.faults[RPopCmd]) && redis.lists == old(redis.lists)
      ensures RPopCmd !in redis.faults && old(redis.Get(FailedQueue(queue))) == [] ==>
        r == Err(RedisNil) && redis.lists == old(redis.lists)
      ensures RPopCmd !in redis.faults && old(redis.Get(FailedQueue(queue))) != [] ==>
        (var s := old(redis.Get(FailedQueue(queue)));
         r == Ok(s[|s| - 1]) && redis.lists == old(redis.lists)[FailedQueue(queue) := s[..|s| - 1]])
    {
      r := redis.RPop(FailedQueue(queue));
    }
  }
}
