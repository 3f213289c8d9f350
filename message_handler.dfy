/**
 * native/src/message_handler.cc: the static `std::queue<Message>` of incoming messages.
 * The queue is a sequence whose front is index 0.
 */
module MessageHandler {

  datatype Message = Message(channelId: string, userId: string, username: string, content: string, timestamp: int)

  /** What `GetNextMessage` returns for an empty queue. */
  const EMPTY_MESSAGE: Message := Message("", "", "", "", 0)

  /** `GetNextMessage` on a queue: the front and the rest, or the sentinel and the queue as it was. */
  function Next(q: seq<Message>): (r: (Message, seq<Message>))
    ensures q == [] ==> r == (EMPTY_MESSAGE, [])
    ensures q != [] ==> [r.0] + r.1 == q
  {
    if q == [] then (EMPTY_MESSAGE, []) else (q[0], q[1..])
  }

  /** `n` successive `GetNextMessage` calls: what they return, and the queue they leave. */
  function TakeN(q: seq<Message>, n: nat): (seq<Message>, seq<Message>)
  {
    if n == 0 then ([], q)
    else
      var first := Next(q);
      var others := TakeN(first.1, n - 1);
      ([first.0] + others.0, others.1)
  }

  /** FIFO: taking as many messages as were queued gives them back in arrival order. */
  lemma {:induction false} TakeInOrder(q: seq<Message>, later: seq<Message>)
    ensures TakeN(q + later, |q|) == (q, later)
  {
    if q != [] {
      assert (q + later)[1..] == q[1..] + later;
      assert Next(q + later) == (q[0], q[1..] + later);
      TakeInOrder(q[1..], later);
      assert [q[0]] + q[1..] == q;
    } else {
      assert q + later == later;
    }
  }

  /** Messages queued behind others wait their turn: pushing at the back leaves the front alone. */
  lemma PushKeepsFront(q: seq<Message>, m: Message)
    ensures q != [] ==> Next(q + [m]) == (q[0], q[1..] + [m])
    ensures q == [] ==> Next(q + [m]) == (m, [])
  {
    if q != [] {
      assert (q + [m])[1..] == q[1..] + [m];
    }
  }

  class Queue {
    var items: seq<Message>

    constructor ()
      ensures items == []
    {
      items := [];
    }

    method QueueMessage(msg: Message)
      modifies this
      ensures items == old(items) + [msg]
    {
      items := items + [msg];
    }

    method GetNextMessage() returns (msg: Message)
      modifies this
      ensures (msg, items) == Next(old(items))
      ensures old(items) == [] ==> items == old(items)
    {
      if items == [] {
        return EMPTY_MESSAGE;
      }
      msg := items[0];
      items := items[1..];
    }

    method HasMessages() returns (b: bool)
      ensures b <==> items != []
    {
      b := items != [];
    }

    /** `while (!empty()) pop()`. */
    method ClearQueue()
      modifies this
      ensures items == []
    {
      while items != []
        decreases |items|
      {
        items := items[1..];
      }
    }
  }
}
