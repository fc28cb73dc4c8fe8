/**
 * In-memory stand-ins for the managed services the stages call: a FIFO queue, an
 * event bus and a notification topic. Every call takes a `fault` input that stands
 * for the service call throwing; a faulty call changes nothing and reports failure.
 */
module Cloud {

  /** A receipt handle; each sent message gets the next unused one. */
  type Handle = nat

  datatype Message<T> = Message(
    receiptHandle: Handle,
    groupId: string,
    deduplicationId: string,
    body: T)

  predicate Increasing<T>(ms: seq<Message<T>>) {
    forall i, j :: 0 <= i < j < |ms| ==> ms[i].receiptHandle < ms[j].receiptHandle
  }

  predicate AllAbove<T>(ms: seq<Message<T>>, b: int) {
    forall i :: 0 <= i < |ms| ==> b < ms[i].receiptHandle
  }

  predicate AllBelow<T>(ms: seq<Message<T>>, b: int) {
    forall i :: 0 <= i < |ms| ==> ms[i].receiptHandle < b
  }

  /** The messages of ms whose handle is not in hs, in their original order. */
  function Without<T>(ms: seq<Message<T>>, hs: set<Handle>): (r: seq<Message<T>>)
    ensures |r| <= |ms|
  {
    if ms == [] then []
    else (if ms[0].receiptHandle in hs then [] else [ms[0]]) + Without(ms[1..], hs)
  }

  /** No message that remains after the removal carries one of the removed handles. */
  lemma {:induction false} WithoutDropsHandles<T>(ms: seq<Message<T>>, hs: set<Handle>)
    ensures forall i :: 0 <= i < |Without(ms, hs)| ==> Without(ms, hs)[i].receiptHandle !in hs
  {
    if ms != [] {
      WithoutDropsHandles(ms[1..], hs);
    }
  }

  /** Removal keeps a queue's handles increasing and within the bounds they were in. */
  lemma {:induction false} WithoutWithin<T>(ms: seq<Message<T>>, hs: set<Handle>, lo: int, hi: int)
    requires Increasing(ms) && AllAbove(ms, lo) && AllBelow(ms, hi)
    ensures var r := Without(ms, hs); Increasing(r) && AllAbove(r, lo) && AllBelow(r, hi)
  {
    if ms != [] {
      var x, t := ms[0], ms[1..];
      WithoutWithin(t, hs, x.receiptHandle, hi);
      var rest := Without(t, hs);
      if x.receiptHandle in hs {
        assert Without(ms, hs) == rest;
      } else {
        assert Without(ms, hs) == [x] + rest;
      }
    }
  }

  /** Removing handles that no message carries changes nothing. */
  lemma {:induction false} WithoutNothing<T>(ms: seq<Message<T>>, hs: set<Handle>)
    requires forall i :: 0 <= i < |ms| ==> ms[i].receiptHandle !in hs
    ensures Without(ms, hs) == ms
  {
    if ms != [] {
      WithoutNothing(ms[1..], hs);
      assert ms == [ms[0]] + ms[1..];
    }
  }

  /** Removing the first message's handle from an increasing queue drops exactly that message. */
  lemma WithoutHead<T>(ms: seq<Message<T>>)
    requires ms != [] && Increasing(ms)
    ensures Without(ms, {ms[0].receiptHandle}) == ms[1..]
  {
    WithoutNothing(ms[1..], {ms[0].receiptHandle});
  }

  /** Two removals in a row remove the union of the handles. */
  lemma {:induction false} WithoutTwice<T>(ms: seq<Message<T>>, a: set<Handle>, b: set<Handle>)
    ensures Without(Without(ms, a), b) == Without(ms, a + b)
  {
    if ms != [] {
      var x, t := ms[0], ms[1..];
      WithoutTwice(t, a, b);
      var ta := Without(t, a);
      if x.receiptHandle in a {
        assert Without(ms, a) == ta;
        assert Without(ms, a + b) == Without(t, a + b);
      } else {
        assert Without(ms, a) == [x] + ta;
        assert ([x] + ta)[1..] == ta;
        if x.receiptHandle in b {
          assert Without([x] + ta, b) == Without(ta, b);
          assert Without(ms, a + b) == Without(t, a + b);
        } else {
          assert Without([x] + ta, b) == [x] + Without(ta, b);
          assert Without(ms, a + b) == [x] + Without(t, a + b);
        }
      }
    }
  }

  /** Deleting one more handle after a list of handles removes the longer list. */
  lemma WithoutOneMore<T>(ms: seq<Message<T>>, deleted: seq<Handle>, h: Handle)
    ensures Without(Without(ms, HandleSet(deleted)), {h}) == Without(ms, HandleSet(deleted + [h]))
  {
    WithoutTwice(ms, HandleSet(deleted), {h});
    assert HandleSet(deleted + [h]) == HandleSet(deleted) + {h};
  }

  /** The set of handles in a list of handles. */
  function HandleSet(hs: seq<Handle>): (s: set<Handle>)
    ensures forall h :: h in s <==> h in hs
  {
    set h | h in hs
  }

  /**
   * A FIFO queue. `messages` are those sent and not yet deleted, oldest first.
   * Visibility timeouts, message groups' delivery rules and deduplication windows
   * are not modelled: a receive always offers the oldest message.
   */
  class Queue<T> {
    var messages: seq<Message<T>>
    var nextHandle: Handle

    ghost predicate Valid()
      reads this
    {
      Increasing(messages) && AllBelow(messages, nextHandle)
    }

    constructor ()
      ensures Valid() && messages == [] && nextHandle == 0
    {
      messages := [];
      nextHandle := 0;
    }

    /** SendMessage: appends one message under the next handle. */
    method Send(body: T, groupId: string, deduplicationId: string, fault: bool) returns (ok: bool)
      requires Valid()
      modifies this
      ensures Valid() && ok == !fault
      ensures messages == if fault then old(messages)
                          else old(messages) + [Message(old(nextHandle), groupId, deduplicationId, body)]
      ensures nextHandle == if fault then old(nextHandle) else old(nextHandle) + 1
    {
      if fault {
        ok := false;
      } else {
        messages := messages + [Message(nextHandle, groupId, deduplicationId, body)];
        nextHandle := nextHandle + 1;
        ok := true;
      }
    }

    /** ReceiveMessage with at most one message per call: the oldest message, if any. */
    method Receive(fault: bool) returns (ok: bool, batch: seq<Message<T>>)
      ensures ok == !fault
      ensures |batch| <= 1
      ensures batch == if fault || messages == [] then [] else [messages[0]]
    {
      ok := !fault;
      batch := if fault || messages == [] then [] else [messages[0]];
    }

    /** DeleteMessage: removes the message with the given receipt handle, if present. */
    method Delete(receiptHandle: Handle, fault: bool) returns (ok: bool)
      requires Valid()
      modifies this
      ensures Valid() && ok == !fault && nextHandle == old(nextHandle)
      ensures messages == if fault then old(messages) else Without(old(messages), {receiptHandle})
    {
      ok := !fault;
      if !fault {
        WithoutWithin(messages, {receiptHandle}, -1, nextHandle);
        messages := Without(messages, {receiptHandle});
      }
    }
  }

  datatype BusEntry<T> = BusEntry(eventBusName: string, source: string, detailType: string, detail: T)

  /** An event bus: the entries put on it, oldest first. */
  class EventBus<T> {
    var entries: seq<BusEntry<T>>

    constructor ()
      ensures entries == []
    {
      entries := [];
    }

    /** PutEvents with one entry. */
    method PutEvents(entry: BusEntry<T>, fault: bool) returns (ok: bool)
      modifies this
      ensures ok == !fault
      ensures entries == if fault then old(entries) else old(entries) + [entry]
    {
      ok := !fault;
      if !fault {
        entries := entries + [entry];
      }
    }
  }

  /** A notification topic: the plain-text messages published to it, oldest first. */
  class Topic {
    var published: seq<string>

    constructor ()
      ensures published == []
    {
      published := [];
    }

    /** Publish one message. */
    method Publish(message: string, fault: bool) returns (ok: bool)
      modifies this
      ensures ok == !fault
      ensures published == if fault then old(published) else old(published) + [message]
    {
      ok := !fault;
      if !fault {
        published := published + [message];
      }
    }
  }
}
