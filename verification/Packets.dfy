/** What travels on a link between a client session and a server connection. */
module Packets {
  /** The content of one event packet; the protocol never looks inside it. */
  type Message = nat

  /** The four packet types, the one-byte heartbeat and the websocket close frame.
      `KeylessEvent` is an event packet without its event name and `Undecodable` is a frame the codec rejects. */
  datatype Packet =
    | DisconnectPacket
    | EventPacket(message: Message)
    | InitPacket
    | ReadyPacket
    | PingFrame
    | CloseFrame
    | KeylessEvent
    | Undecodable

  /** The event contents carried by a queue of packets, in order. */
  function Events(packets: seq<Packet>): (messages: seq<Message>)
  {
    if packets == [] then []
    else (if packets[0].EventPacket? then [packets[0].message] else []) + Events(packets[1..])
  }

  lemma {:induction false} EventsConcat(a: seq<Packet>, b: seq<Packet>)
    ensures Events(a + b) == Events(a) + Events(b)
  {
    if a == [] {
      assert a + b == b;
    } else {
      assert (a + b)[1..] == a[1..] + b && (a + b)[0] == a[0];
      EventsConcat(a[1..], b);
      var first := if a[0].EventPacket? then [a[0].message] else [];
      assert first + (Events(a[1..]) + Events(b)) == first + Events(a[1..]) + Events(b);
    }
  }

  lemma EventsAdd(queue: seq<Packet>, packet: Packet)
    ensures Events(queue + [packet]) == if packet.EventPacket? then Events(queue) + [packet.message] else Events(queue)
  {
    EventsConcat(queue, [packet]);
    assert Events([packet]) == if packet.EventPacket? then [packet.message] else [];
  }

  /** How many messages a channel can hold. */
  type Capacity = n: nat | 1 <= n witness 1

  /** One direction of the connection: the sender's bounded channel, the write task that empties it and the wire behind
      it form one FIFO queue, whose last `waiting` packets are still in the channel. `open` says that the channel still
      has its receiver, which is the write task. `cut` says that the wire has failed or that the write task has ended
      with packets in the channel: nothing that is queued after that ever arrives. */
  datatype Link = Link(queue: seq<Packet>, waiting: nat, open: bool, cut: bool) {
    /** A `send` goes through: there is room, or it fails because the receiver is gone. */
    predicate Accepts(capacity: Capacity)
    {
      !open || waiting < capacity
    }

    /** What a `try_send` reports. */
    predicate Takes(capacity: Capacity)
    {
      open && waiting < capacity
    }

    /** How many packets have left the channel. */
    function Written(): (n: nat)
      ensures n <= |queue|
    {
      if cut || |queue| < waiting then |queue| else |queue| - waiting
    }

    function Send(p: Packet): Link
    {
      if open then Link(if cut then queue else queue + [p], waiting + 1, open, cut) else this
    }

    /** The write task takes a packet from the channel. */
    function Write(): Link
      requires 0 < waiting
    {
      this.(waiting := waiting - 1)
    }

    function Receive(): Link
      requires queue != []
    {
      this.(queue := queue[1..])
    }

    /** The wire fails and everything after the first `keep` packets is lost. */
    function Cut(keep: nat): Link
      requires keep <= |queue|
    {
      this.(queue := queue[..keep], cut := true)
    }

    /** The write task ends, and with it what is left in the channel. */
    function Close(): Link
    {
      Link(queue[..Written()], 0, false, cut || 0 < waiting)
    }
  }

  const FRESH_LINK := Link([], 0, true, false)
}
