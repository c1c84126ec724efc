/** The channel of channel.hpp: a FIFO queue guarded by one mutex and one condition variable. A call
    that waits on the condition is a step that is enabled once the condition holds. */
module Channels {

  datatype Popped<+T> = Nothing | Value(value: T)

  class Channel<T> {
    const cap: nat
    var queue: seq<T>
    var size: nat
    var closed: bool

    /** The counter that is read outside the mutex agrees with the queue, and a bounded channel is
        never over its bound. */
    predicate Valid()
      reads this
    {
      size == |queue| && (cap > 0 ==> size <= cap)
    }

    constructor (cap: nat)
      ensures Valid() && this.cap == cap && queue == [] && !closed
    {
      this.cap := cap;
      queue := [];
      size := 0;
      closed := false;
    }

    /** What waitBeforeWrite waits for; a channel of capacity 0 never makes a writer wait. */
    predicate CanWrite()
      reads this
    {
      cap > 0 ==> size < cap
    }

    /** What waitBeforeRead waits for. */
    predicate CanRead()
      reads this
    {
      size > 0 || closed
    }

    /** Writing to a closed channel throws. */
    method Push(x: T) returns (thrown: bool)
      requires Valid() && (closed || CanWrite())
      modifies this
      ensures Valid() && closed == old(closed) && thrown == closed
      ensures queue == if thrown then old(queue) else old(queue) + [x]
    {
      if closed {
        return true;
      }
      queue := queue + [x];
      size := size + 1;
      thrown := false;
    }

    /** Nothing is read from a channel that is closed and drained. */
    method Pop() returns (r: Popped<T>)
      requires Valid() && CanRead()
      modifies this
      ensures Valid() && closed == old(closed)
      ensures old(queue) == [] ==> r == Nothing && queue == []
      ensures old(queue) != [] ==> r == Value(old(queue)[0]) && queue == old(queue)[1..]
    {
      if closed && size == 0 {
        return Nothing;
      }
      r := Nothing;
      if size != 0 {
        r := Value(queue[0]);
        queue := queue[1..];
        size := size - 1;
      }
    }

    /** Gives up when nothing arrived in time. */
    method TryPop() returns (r: Popped<T>)
      requires Valid()
      modifies this
      ensures Valid() && closed == old(closed)
      ensures old(queue) == [] ==> r == Nothing && queue == []
      ensures old(queue) != [] ==> r == Value(old(queue)[0]) && queue == old(queue)[1..]
    {
      if queue == [] {
        return Nothing;
      }
      r := Value(queue[0]);
      queue := queue[1..];
      size := size - 1;
    }

    method Close()
      requires Valid()
      modifies this
      ensures Valid() && closed && queue == old(queue)
    {
      closed := true;
    }
  }
}
