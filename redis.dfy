// The four Redis list commands the brokers use, over a map from key to list.
// A list is read head first: LPUSH adds at index 0, RPOP takes the last
// element. A missing key is the empty list. `faults` names the commands that
// currently fail (a lost connection) and the error they return.

module RedisLists {
  import opened Common

  datatype Command = LPushCmd | BRPopLPushCmd | LRemCmd | RPopCmd

  function List(lists: map<string, seq<string>>, key: string): seq<string>
  {
    if key in lists then lists[key] else []
  }

  /** LREM key 1 value: the first occurrence from the head goes. */
  function RemoveFirst(l: seq<string>, v: string): (r: seq<string>)
    ensures v !in l ==> r == l
    ensures v in l ==> |r| == |l| - 1 && multiset(r) == multiset(l) - multiset{v}
  {
    if l == [] then []
    else if l[0] == v then
      assert l == [l[0]] + l[1..];
      l[1..]
    else
      assert l == [l[0]] + l[1..];
      [l[0]] + RemoveFirst(l[1..], v)
  }

  /** Only the listed keys differ between the two states. */
  ghost predicate OthersUnchanged(before: map<string, seq<string>>, after: map<string, seq<string>>, keys: set<string>)
  {
    forall k :: k !in keys ==> List(after, k) == List(before, k)
  }

  /** The keys both brokers derive from a queue name: the list a received
    * payload waits in while it is handled, and the list of failed payloads. */
  function TmpQueue(queue: string): string
  {
    queue + ":tmp"
  }

  function FailedQueue(queue: string): string
  {
    queue + ":failed"
  }

  /** A queue, its temporary list and its failed list are three lists. */
  lemma QueueNamesDistinct(queue: string)
    ensures queue != TmpQueue(queue) && queue != FailedQueue(queue) && TmpQueue(queue) != FailedQueue(queue)
  {
    assert |TmpQueue(queue)| == |queue| + 4 && |FailedQueue(queue)| == |queue| + 7;
  }

  class Redis {
    var lists: map<string, seq<string>>
    var faults: map<Command, Error>

    constructor (faults: map<Command, Error>)
      ensures lists == map[] && this.faults == faults
    {
      lists := map[];
      this.faults := faults;
    }

    function Get(key: string): seq<string>
      reads this
    {
      List(lists, key)
    }

    /** LPUSH key value */
    method LPush(key: string, value: string) returns (err: Option<Error>)
      modifies this
      ensures faults == old(faults)
      ensures LPushCmd in faults ==> err == Some(faults[LPushCmd]) && lists == old(lists)
      ensures LPushCmd !in faults ==> err.None? && lists == old(lists)[key := [value] + old(Get(key))]
    {
      if LPushCmd in faults {
        return Some(faults[LPushCmd]);
      }
      lists := lists[key := [value] + Get(key)];
      err := None;
    }

    /** BRPOPLPUSH source destination: the tail of source moves to the head
      * of destination; an empty source answers nil. */
    method BRPopLPush(source: string, destination: string) returns (r: Result<string>)
      requires source != destination
      modifies this
      ensures faults == old(faults)
      ensures BRPopLPushCmd in faults ==> r == Err(faults[BRPopLPushCmd]) && lists == old(lists)
      ensures BRPopLPushCmd !in faults && old(Get(source)) == [] ==> r == Err(RedisNil) && lists == old(lists)
      ensures BRPopLPushCmd !in faults && old(Get(source)) != [] ==>
        (var s := old(Get(source));
         r == Ok(s[|s| - 1])
         && lists == old(lists)[source := s[..|s| - 1]][destination := [s[|s| - 1]] + old(Get(destination))])
    {
      if BRPopLPushCmd in faults {
        return Err(faults[BRPopLPushCmd]);
      }
      var s := Get(source);
      if s == [] {
        return Err(RedisNil);
      }
      var v := s[|s| - 1];
      lists := lists[source := s[..|s| - 1]][destination := [v] + Get(destination)];
      r := Ok(v);
    }

    /** LREM key 1 value */
    method LRem(key: string, value: string) returns (err: Option<Error>)
      modifies this
      ensures faults == old(faults)
      ensures LRemCmd in faults ==> err == Some(faults[LRemCmd]) && lists == old(lists)
      ensures LRemCmd !in faults ==> err.None? && lists == old(lists)[key := RemoveFirst(old(Get(key)), value)]
    {
      if LRemCmd in faults {
        return Some(faults[LRemCmd]);
      }
      lists := lists[key := RemoveFirst(Get(key), value)];
      err := None;
    }

    /** RPOP key: the tail, or nil for an empty list. */
    method RPop(key: string) returns (r: Result<string>)
      modifies this
      ensures faults == old(faults)
      ensures RPopCmd in faults ==> r == Err(faults[RPopCmd]) && lists == old(lists)
      ensures RPopCmd !in faults && old(Get(key)) == [] ==> r == Err(RedisNil) && lists == old(lists)
      ensures RPopCmd !in faults && old(Get(key)) != [] ==>
        (var s := old(Get(key));
         r == Ok(s[|s| - 1]) && lists == old(lists)[key := s[..|s| - 1]])
    {
      if RPopCmd in faults {
        return Err(faults[RPopCmd]);
      }
      var s := Get(key);
      if s == [] {
        return Err(RedisNil);
      }
      lists := lists[key := s[..|s| - 1]];
      r := Ok(s[|s| - 1]);
    }
  }

  /** The values successive RPOPs return, until the list is empty. */
  function PopOrder(l: seq<string>): (r: seq<string>)
    ensures |r| == |l|
  {
    if l == [] then [] else [l[|l| - 1]] + PopOrder(l[..|l| - 1])
  }

  /** LPUSH with RPOP is first in, first out: a value pushed now comes out
    * after everything already in the list, which keeps its order. */
  lemma {:induction false} PushPopFifo(l: seq<string>, v: string)
    ensures PopOrder([v] + l) == PopOrder(l) + [v]
    decreases |l|
  {
    var l' := [v] + l;
    if l == [] {
      assert l'[..|l'| - 1] == [];
    } else {
      assert l'[..|l'| - 1] == [v] + l[..|l| - 1];
      PushPopFifo(l[..|l| - 1], v);
    }
  }

  /** The head push of BRPOPLPUSH is undone by LREM key 1 of the same
    * value: a temporary list returns to what it held. */
  lemma PushThenRemove(l: seq<string>, v: string)
    ensures RemoveFirst([v] + l, v) == l
  {
    assert ([v] + l)[1..] == l;
  }
}
