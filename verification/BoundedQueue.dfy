/** A bounded hand-off queue between a producer that never waits and consumers that may. */
module BoundedQueues {

  /**
   * A promise is a ticket; settling it is recorded in `delivered`. The two tapes are everything ever
   * accepted and how many promises were handed out.
   */
  class BoundedQueue<T> {
    const maxSize: nat
    var items: seq<T>
    var waiters: seq<nat>
    var delivered: map<nat, T>
    var nextTicket: nat
    ghost var accepted: seq<T>

    /**
     * First come, first served: promise `i` is settled by the `i`-th value accepted, and the rest still wait on one
     * side only.
     */
    ghost predicate Valid()
      reads this
    {
      && (items == [] || waiters == [])
      && |items| <= maxSize
      && |accepted| + |waiters| == nextTicket + |items|
      && (forall i: nat :: i in delivered <==> i < nextTicket - |waiters|)
      && (forall i: nat :: i in delivered ==> delivered[i] == accepted[i])
      && (forall i :: 0 <= i < |waiters| ==> waiters[i] == nextTicket - |waiters| + i)
      && items == accepted[|accepted| - |items|..]
    }

    constructor (maxSize: nat)
      ensures Valid() && this.maxSize == maxSize
      ensures items == [] && waiters == [] && delivered == map[] && nextTicket == 0 && accepted == []
    {
      this.maxSize := maxSize;
      items, waiters, delivered, nextTicket, accepted := [], [], map[], 0, [];
    }

    /** Refused exactly when nobody waits and the queue is full; a refused value leaves no trace. */
    method TryPush(value: T) returns (ok: bool)
      requires Valid()
      modifies this
      ensures Valid() && nextTicket == old(nextTicket)
      ensures ok == (old(waiters) != [] || |old(items)| < maxSize)
      ensures accepted == if ok then old(accepted) + [value] else old(accepted)
      ensures old(waiters) != [] ==>
                waiters == old(waiters)[1..] && delivered == old(delivered)[old(waiters)[0] := value]
                    && items == old(items)
      ensures old(waiters) == [] ==>
                waiters == [] && delivered == old(delivered) && items == if ok then old(items) + [value] else old(items)
    {
      if waiters != [] {
        var waiter := waiters[0];
        waiters := waiters[1..];
        delivered := delivered[waiter := value];
        accepted := accepted + [value];
        return true;
      }
      if |items| >= maxSize {
        return false;
      }
      items := items + [value];
      accepted := accepted + [value];
      return true;
    }

    /** Hands out the next promise, settled at once when something is queued. */
    method Next() returns (ticket: nat)
      requires Valid()
      modifies this
      ensures Valid() && accepted == old(accepted)
      ensures ticket == old(nextTicket) && nextTicket == ticket + 1
      ensures old(items) != [] ==>
                items == old(items)[1..] && delivered == old(delivered)[ticket := old(items)[0]]
                    && waiters == old(waiters)
      ensures old(items) == [] ==>
                items == [] && delivered == old(delivered) && waiters == old(waiters) + [ticket]
    {
      ticket := nextTicket;
      nextTicket := nextTicket + 1;
      if items != [] {
        delivered := delivered[ticket := items[0]];
        items := items[1..];
      } else {
        waiters := waiters + [ticket];
      }
    }
  }
}
