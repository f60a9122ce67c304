/** The admission counter and the request ids of the dispatcher (internal/dispatcher/dispatcher.go:52-79, 155). */
module Dispatcher {
  import opened Basics

  class Dispatcher {
    const capacity: int
    var waiting: int
    var reqSeq: nat
    /** The requests between entering and leaving the queue. */
    ghost var inside: set<nat>

    ghost predicate Valid()
      reads this
    {
      waiting == |inside| && waiting <= Max(capacity, 0)
    }

    constructor (capacity: int)
      ensures Valid() && this.capacity == capacity && inside == {} && reqSeq == 0
    {
      this.capacity := capacity;
      waiting, reqSeq, inside := 0, 0, {};
    }

    /** tryEnterQueue (59-71). */
    method TryEnterQueue(ghost request: nat) returns (ok: bool)
      requires Valid() && request !in inside
      modifies this
      ensures Valid() && reqSeq == old(reqSeq)
      ensures ok <==> |old(inside)| < capacity
      ensures inside == if ok then old(inside) + {request} else old(inside)
    {
      if capacity <= 0 {
        return false;
      }
      if waiting >= capacity {
        return false;
      }
      waiting := waiting + 1;
      inside := inside + {request};
      return true;
    }

    /** leaveQueue (73-79), whose guard is never false. */
    method LeaveQueue(ghost request: nat)
      requires Valid() && request in inside
      modifies this
      ensures Valid() && reqSeq == old(reqSeq)
      ensures inside == old(inside) - {request} && waiting == old(waiting) - 1
    {
      if waiting > 0 {
        waiting := waiting - 1;
      }
      inside := inside - {request};
    }

    method NextId() returns (id: nat)
      requires Valid()
      modifies this
      ensures Valid() && inside == old(inside) && waiting == old(waiting)
      ensures id == reqSeq == old(reqSeq) + 1
    {
      reqSeq := reqSeq + 1;
      id := reqSeq;
    }
  }
}
