/** The queue between the event callbacks and the worker. */
module WorkQueues {
  import opened Base

  /** First in, first out. Every item is an object of its own, so the queue never merges two of them. */
  class WorkQueue<T> {
    var items: seq<T>
    var shuttingDown: bool

    constructor ()
      ensures items == [] && !shuttingDown
    {
      items, shuttingDown := [], false;
    }

    method Add(x: T)
      modifies this
      ensures shuttingDown == old(shuttingDown)
      ensures items == if shuttingDown then old(items) else old(items) + [x]
    {
      if !shuttingDown {
        items := items + [x];
      }
    }

    /** Waits while the queue is empty, unless it is shutting down. What was queued before is still handed out. */
    method Get() returns (item: Option<T>)
      requires items != [] || shuttingDown
      modifies this
      ensures shuttingDown == old(shuttingDown)
      ensures if old(items) == [] then item.None? && items == [] else item == Some(old(items)[0]) && items == old(items)[1..]
    {
      if items == [] {
        return None;
      }
      item, items := Some(items[0]), items[1..];
    }

    method ShutDown()
      modifies this
      ensures shuttingDown && items == old(items)
    {
      shuttingDown := true;
    }
  }
}
