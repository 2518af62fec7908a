/**
 * The first-in first-out queue objects the speech pipeline shares between the
 * page, the audio processor and the recognition worker (`queue.Queue`, and the
 * worker's `asyncio.Queue`).
 */
module Queues {

  class Fifo<T> {
    /** The queued items, oldest first. */
    var items: seq<T>

    constructor ()
      ensures items == []
    {
      items := [];
    }

    /** `q.empty()`. */
    predicate Empty()
      reads this
    {
      items == []
    }

    /** `q.put(x)`. */
    method Put(x: T)
      modifies this
      ensures items == old(items) + [x]
    {
      items := items + [x];
    }

    /** `q.get()` on a queue that is not empty. */
    method Get() returns (x: T)
      requires items != []
      modifies this
      ensures x == old(items)[0] && items == old(items)[1..]
    {
      x := items[0];
      items := items[1..];
    }

    /** `while not q.empty(): q.get()`: the items it takes, oldest first. */
    method TakeAll() returns (xs: seq<T>)
      modifies this
      ensures xs == old(items) && items == []
    {
      xs := [];
      while !Empty()
        invariant xs + items == old(items)
        decreases |items|
      {
        var x := Get();
        xs := xs + [x];
      }
    }
  }
}
