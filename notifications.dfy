/** The notification FIFO.  The engine's notify hook appends each delivered
    notification at the tail of a singly linked queue; polling takes the
    head; a reset drains it.  Allocation failures are parameters. */
module Notifications {
  import opened Common

  /** A `pg_notification` as the caller receives it. */
  datatype Notification = Notification(channel: string, payload: string, senderPid: int)

  /** A `pg_notification_node`: its strings and sender never change after
      capture; only `next` is relinked. */
  class Node {
    const channel: string
    const payload: string
    const senderPid: int
    var next: Node?

    constructor (channel: string, payload: string, senderPid: int)
      ensures this.channel == channel && this.payload == payload && this.senderPid == senderPid
      ensures next == null
    {
      this.channel := channel;
      this.payload := payload;
      this.senderPid := senderPid;
      next := null;
    }

    function Value(): (n: Notification)
      ensures n.channel == channel && n.payload == payload && n.senderPid == senderPid
    {
      Notification(channel, payload, senderPid)
    }
  }

  /** The notifications held by a chain of nodes, in order. */
  function Values(ns: seq<Node>): (vs: seq<Notification>)
    ensures |vs| == |ns|
    ensures forall i :: 0 <= i < |ns| ==> vs[i] == ns[i].Value()
  {
    if |ns| == 0 then [] else [ns[0].Value()] + Values(ns[1..])
  }

  /** One notification that `ProcessNotifyInterrupt` hands to the notify
      hook, with the outcomes of the three allocations the capture makes. */
  datatype Delivery = Delivery(channel: string, payload: Option<string>, senderPid: int,
                               nodeAllocOk: bool, channelDupOk: bool, payloadDupOk: bool)
  {
    predicate Kept() {
      nodeAllocOk && channelDupOk && payloadDupOk
    }

    function Stored(): Notification {
      Notification(channel, payload.GetOr(""), senderPid)
    }
  }

  /** What a run of deliveries adds to the queue: the kept ones, in order. */
  function CapturedAll(ds: seq<Delivery>): (ns: seq<Notification>)
    ensures |ns| <= |ds|
  {
    if |ds| == 0 then []
    else
      var k := |ds| - 1;
      CapturedAll(ds[..k]) + (if ds[k].Kept() then [ds[k].Stored()] else [])
  }

  /** When every allocation succeeds, each delivery is queued, in delivery
      order. */
  lemma {:induction false} CapturedAllKeepsEvery(ds: seq<Delivery>)
    requires forall i :: 0 <= i < |ds| ==> ds[i].Kept()
    ensures |CapturedAll(ds)| == |ds|
    ensures forall i :: 0 <= i < |ds| ==> CapturedAll(ds)[i] == ds[i].Stored()
  {
    if |ds| > 0 {
      var k := |ds| - 1;
      CapturedAllKeepsEvery(ds[..k]);
    }
  }

  /** A delivery whose capture fails adds nothing. */
  lemma CapturedAllDropsFailed(ds: seq<Delivery>, d: Delivery)
    requires !d.Kept()
    ensures CapturedAll(ds + [d]) == CapturedAll(ds)
  {
    assert (ds + [d])[..|ds|] == ds;
  }

  lemma ValuesSnoc(ns: seq<Node>, n: Node)
    ensures Values(ns + [n]) == Values(ns) + [n.Value()]
  {
    assert forall i :: 0 <= i < |ns| ==> (ns + [n])[i] == ns[i];
  }

  /** Why `poll` gave nothing back although the queue was not empty. */
  const OutOfMemoryMessage: string := "Out of memory"
  const PollFailedPrefix: string := "Poll notifications failed: "

  /** The static `notification_queue_head`/`notification_queue_tail` pair. */
  class NotificationQueue {
    var head: Node?
    var tail: Node?
    /** The nodes from head to tail. */
    ghost var nodes: seq<Node>

    /** Head is the first node, tail the last, each node links to the next
        and the tail's link is NULL; both ends are NULL exactly when the
        queue is empty. */
    ghost predicate Valid()
      reads this, nodes
    {
      (head == null <==> |nodes| == 0) &&
      (tail == null <==> |nodes| == 0) &&
      (|nodes| > 0 ==> head == nodes[0] && tail == nodes[|nodes| - 1] && tail.next == null) &&
      (forall i :: 0 <= i < |nodes| - 1 ==> nodes[i].next == nodes[i + 1]) &&
      forall i, j :: 0 <= i < j < |nodes| ==> nodes[i] != nodes[j]
    }

    ghost function Contents(): seq<Notification>
      reads this
    {
      Values(nodes)
    }

    constructor ()
      ensures Valid() && Contents() == [] && head == null && tail == null
    {
      head := null;
      tail := null;
      nodes := [];
    }

    /** `pg_embedded_capture_notification`.  A NULL payload is stored as
        the empty string.  If the node, the channel copy or the payload copy
        cannot be allocated, the notification is dropped and the queue is
        left as it was. */
    method Capture(channel: string, payload: Option<string>, senderPid: int,
                   nodeAllocOk: bool, channelDupOk: bool, payloadDupOk: bool)
      returns (captured: bool)
      requires Valid()
      modifies this, nodes
      ensures Valid()
      ensures captured == (nodeAllocOk && channelDupOk && payloadDupOk)
      ensures captured ==> Contents() == old(Contents()) + [Notification(channel, payload.GetOr(""), senderPid)]
      ensures !captured ==> Contents() == old(Contents()) && nodes == old(nodes)
      ensures forall i :: 0 <= i < |nodes| ==> nodes[i] in old(nodes) || fresh(nodes[i])
    {
      if !nodeAllocOk || !channelDupOk || !payloadDupOk {
        return false;
      }
      var node := new Node(channel, payload.GetOr(""), senderPid);
      ValuesSnoc(nodes, node);
      Link(node);
      captured := true;
    }

    /** Links a new node at the tail. */
    method Link(node: Node)
      requires Valid() && node !in nodes && node.next == null
      modifies this, nodes
      ensures Valid() && nodes == old(nodes) + [node]
    {
      ghost var ns := nodes;
      if tail != null {
        assert forall i :: 0 <= i < |ns| - 1 ==> ns[i] != tail;
        tail.next := node;
        tail := node;
      } else {
        head := node;
        tail := node;
      }
      nodes := ns + [node];
      assert forall i :: 0 <= i < |ns| - 1 ==> ns[i].next == ns[i + 1];
    }

    /** `pg_embedded_poll_notifications`.  `ProcessNotifyInterrupt` first
        hands `delivered` to the notify hook, which captures each of them,
        and then returns or raises with `engineError`; either way the head
        of the queue is then dequeued.  If the result record cannot be
        allocated the dequeued notification is lost and the message is
        "Out of memory".  `message` is the last text written to the error
        buffer, None when nothing was written. */
    method Poll(delivered: seq<Delivery>, engineError: Option<string>, resultAllocOk: bool)
      returns (result: Option<Notification>, message: Option<string>)
      requires Valid()
      modifies this, nodes
      ensures Valid()
      ensures forall i :: 0 <= i < |nodes| ==> nodes[i] in old(nodes) || fresh(nodes[i])
      ensures var q := old(Contents()) + CapturedAll(delivered);
        (q == [] ==> result.None? && Contents() == [] && head == null && tail == null) &&
        (q != [] ==> Contents() == q[1..] && (tail == null <==> |q| == 1)) &&
        (result.Some? <==> q != [] && resultAllocOk) &&
        (result.Some? ==> result.value == q[0]) &&
        message ==
          if q != [] && !resultAllocOk then Some(OutOfMemoryMessage)
          else if engineError.Some? then Some(PollFailedPrefix + engineError.value)
          else None
    {
      Deliver(delivered);
      result, message := PollQueued(engineError, resultAllocOk);
    }

    /** What poll does once the hook has run: the error buffer gets the
        engine's error, then the head is dequeued. */
    method PollQueued(engineError: Option<string>, resultAllocOk: bool)
      returns (result: Option<Notification>, message: Option<string>)
      requires Valid()
      modifies this
      ensures Valid()
      ensures nodes == if old(nodes) == [] then old(nodes) else old(nodes)[1..]
      ensures var q := old(Contents());
        (q == [] ==> result.None? && Contents() == [] && head == null && tail == null) &&
        (q != [] ==> Contents() == q[1..] && (tail == null <==> |q| == 1)) &&
        (result.Some? <==> q != [] && resultAllocOk) &&
        (result.Some? ==> result.value == q[0]) &&
        message ==
          if q != [] && !resultAllocOk then Some(OutOfMemoryMessage)
          else if engineError.Some? then Some(PollFailedPrefix + engineError.value)
          else None
    {
      message := None;
      if engineError.Some? {
        message := Some(PollFailedPrefix + engineError.value);
      }
      var taken := head != null;
      result := TakeHead(resultAllocOk);
      if taken && !resultAllocOk {
        message := Some(OutOfMemoryMessage);
      }
    }

    /** The notify hook, called once per delivered notification, in
        delivery order. */
    method Deliver(delivered: seq<Delivery>)
      requires Valid()
      modifies this, nodes
      ensures Valid() && Contents() == old(Contents()) + CapturedAll(delivered)
      ensures forall i :: 0 <= i < |nodes| ==> nodes[i] in old(nodes) || fresh(nodes[i])
      decreases |delivered|
    {
      if |delivered| == 0 {
        return;
      }
      var k := |delivered| - 1;
      Deliver(delivered[..k]);
      ghost var mid := Contents();
      var d := delivered[k];
      var kept := Capture(d.channel, d.payload, d.senderPid, d.nodeAllocOk, d.channelDupOk, d.payloadDupOk);
      ghost var added: seq<Notification> := if kept then [d.Stored()] else [];
      assert Contents() == mid + added;
      assert CapturedAll(delivered) == CapturedAll(delivered[..k]) + added;
      AppendAssociates(old(Contents()), CapturedAll(delivered[..k]), added);
    }

    /** The dequeue of `pg_embedded_poll_notifications`: the head is
        unlinked whether or not its record can be allocated. */
    method TakeHead(resultAllocOk: bool) returns (result: Option<Notification>)
      requires Valid()
      modifies this
      ensures Valid()
      ensures old(Contents()) == [] ==> result.None? && Contents() == [] && head == null && tail == null
      ensures old(Contents()) != [] ==> Contents() == old(Contents())[1..]
      ensures old(Contents()) != [] ==> (tail == null <==> old(|Contents()|) == 1)
      ensures result.Some? <==> old(Contents()) != [] && resultAllocOk
      ensures result.Some? ==> result.value == old(Contents())[0]
      ensures old(head) != null <==> old(Contents()) != []
      ensures nodes == if old(nodes) == [] then old(nodes) else old(nodes)[1..]
    {
      result := None;
      if head != null {
        var node := head;
        head := node.next;
        if head == null {
          tail := null;
        }
        nodes := nodes[1..];
        assert Values(old(nodes))[1..] == Values(nodes);
        if resultAllocOk {
          result := Some(node.Value());
        }
      }
    }

    /** `reset_notification_queue`: drop every node; both ends are NULL
        afterwards. */
    method Reset()
      requires Valid()
      modifies this
      ensures Valid() && Contents() == [] && head == null && tail == null
    {
      while head != null
        invariant Valid()
        decreases |nodes|
      {
        var node := head;
        ghost var ns := nodes;
        if |ns| > 1 {
          assert ns[0].next == ns[1];
        }
        head := node.next;
        nodes := ns[1..];
        if head == null {
          tail := null;
        }
      }
      tail := null;
    }
  }

  // ---------------------------------------------------------------------
  // FIFO order, stated on the queue's methods
  // ---------------------------------------------------------------------

  /** A client's round trip: the hook captures each of `xs` and then
      `pg_embedded_poll_notifications` is called until it returns NULL,
      with every allocation succeeding, no further delivery and no engine
      error.  The polls return what was queued, then `xs`, in order. */
  method CaptureThenDrain(q: NotificationQueue, xs: seq<Notification>) returns (polled: seq<Notification>)
    requires q.Valid()
    modifies q, q.nodes
    ensures q.Valid() && q.Contents() == [] && q.head == null && q.tail == null
    ensures polled == old(q.Contents()) + xs
  {
    var ds := seq(|xs|, i requires 0 <= i < |xs| => Delivery(xs[i].channel, Some(xs[i].payload), xs[i].senderPid, true, true, true));
    q.Deliver(ds);
    CapturedAllKeepsEvery(ds);
    assert CapturedAll(ds) == xs;
    polled := PollUntilNull(q);
  }

  /** Poll until NULL, with nothing further delivered and every record
      allocated: the queue's contents come back in order. */
  method PollUntilNull(q: NotificationQueue) returns (polled: seq<Notification>)
    requires q.Valid()
    modifies q, q.nodes
    ensures q.Valid() && q.Contents() == [] && q.head == null && q.tail == null
    ensures polled == old(q.Contents())
    decreases |q.nodes|
  {
    if q.head == null {
      return [];
    }
    ghost var before := q.Contents();
    var r, _ := q.Poll([], None, true);
    assert before + CapturedAll([]) == before;
    var rest := PollUntilNull(q);
    polled := [r.value] + rest;
  }

  // ---------------------------------------------------------------------
  // Freeing a polled notification
  // ---------------------------------------------------------------------

  /** A `pg_notification *` as the caller may pass it to free: the record
      may be NULL and so may either string. */
  datatype NotificationRecord = NotificationRecord(channel: Option<string>, payload: Option<string>, senderPid: int)

  datatype Block = ChannelBlock | PayloadBlock | RecordBlock

  /** `pg_embedded_free_notification`: the blocks it frees, in order.  NULL
      is accepted and frees nothing; a NULL string is skipped. */
  function FreeNotification(n: Option<NotificationRecord>): (freed: seq<Block>)
    ensures n.None? <==> freed == []
    ensures ChannelBlock in freed <==> n.Some? && n.value.channel.Some?
    ensures PayloadBlock in freed <==> n.Some? && n.value.payload.Some?
    ensures forall i, j :: 0 <= i < j < |freed| ==> freed[i] != freed[j]
  {
    match n
    case None => []
    case Some(r) =>
      (if r.channel.Some? then [ChannelBlock] else []) +
      (if r.payload.Some? then [PayloadBlock] else []) +
      [RecordBlock]
  }

  /** What a successful poll hands back: both strings set. */
  function AsRecord(n: Notification): NotificationRecord {
    NotificationRecord(Some(n.channel), Some(n.payload), n.senderPid)
  }

  /** Freeing what a poll returned releases the record and both strings,
      each once. */
  lemma FreePolledReleasesAll(n: Notification)
    ensures FreeNotification(Some(AsRecord(n))) == [ChannelBlock, PayloadBlock, RecordBlock]
  {
  }
}
