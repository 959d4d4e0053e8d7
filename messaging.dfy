/** The status channel of whisperqueue.py: a FIFO queue of status records
    that the components send to and the display loop drains. */
module Messaging {

  /** `{"status": ..., "component": ..., "message": ...}`. */
  datatype StatusMessage = StatusMessage(status: string, component: string, message: string)

  /** `WhisperQueue`, a `queue.Queue` of status records. */
  class WhisperQueue {
    /** The records queued and not yet taken, oldest first. */
    var items: seq<StatusMessage>

    constructor()
      ensures items == []
    {
      items := [];
    }

    /** `send_message`: put one record at the back of the queue. */
    method SendMessage(status: string, component: string, message: string)
      modifies this
      ensures items == old(items) + [StatusMessage(status, component, message)]
      ensures |items| == |old(items)| + 1 && items[..|old(items)|] == old(items)
      ensures items[|items| - 1].status == status && items[|items| - 1].component == component
      ensures items[|items| - 1].message == message
    {
      items := items + [StatusMessage(status, component, message)];
    }

    /** `qsize()`. */
    function Size(): (n: nat)
      reads this
      ensures n == 0 <==> items == []
    {
      |items|
    }

    /** `get()` once the queue is known to be non-empty (the display loop
        checks `qsize() > 0` first): take the oldest record. */
    method Get() returns (m: StatusMessage)
      requires items != []
      modifies this
      ensures m == old(items)[0] && items == old(items)[1..]
    {
      m := items[0];
      items := items[1..];
    }
  }

  /** FIFO delivery: records sent in the order A, B, C are taken in the
      order A, B, C, after everything queued before them. */
  method SendOrderIsReceiveOrder(q: WhisperQueue, a: StatusMessage, b: StatusMessage, c: StatusMessage)
    returns (x: StatusMessage, y: StatusMessage, z: StatusMessage)
    modifies q
    ensures |old(q.items)| == 0 ==> x == a && y == b && z == c && q.items == []
    ensures |old(q.items)| > 0 ==> x == old(q.items)[0]
  {
    q.SendMessage(a.status, a.component, a.message);
    q.SendMessage(b.status, b.component, b.message);
    q.SendMessage(c.status, c.component, c.message);
    x := q.Get();
    y := q.Get();
    z := q.Get();
  }
}
