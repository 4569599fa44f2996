/** A client session and the server connection it reached, joined by two FIFO links, under any interleaving. */
module Handshake {
  import opened Packets
  import S = ServerConnection
  import C = ClientSession

  datatype Config = Config(server: S.Config, serverCapacity: Capacity, initHandler: bool, clientCapacity: Capacity)

  /** `down` runs from server to client, `up` from client to server. */
  datatype Pair = Pair(server: S.Connection, client: C.Session, down: Link, up: Link)

  const NEW_PAIR := Pair(S.NEW_CONNECTION, C.NEW_SESSION, FRESH_LINK, FRESH_LINK)

  /** One side acts, a write task takes a packet from its channel, a wire fails, or a write task ends. */
  datatype Step =
    | Server(s: S.Action)
    | Client(c: C.Action)
    | WriteDown | WriteUp
    | CutDown(keep: nat) | CutUp(keep: nat)
    | CloseDown | CloseUp

  function ServerSends(a: S.Action): seq<Packet>
  {
    match a
    case SendInit(_) => [InitPacket]
    case SendReady(_) => [ReadyPacket]
    case CloseSend(queued) => if queued then [CloseFrame] else []
    case EmitSend(m) => [EventPacket(m)]
    case SendDisconnect => [DisconnectPacket]
    case _ => []
  }

  function ClientSends(a: C.Action): seq<Packet>
  {
    match a
    case SendInit(_) => [InitPacket]
    case CloseSend(queued) => if queued then [CloseFrame] else []
    case EmitSend(m, _) => [EventPacket(m)]
    case Ping => [PingFrame]
    case _ => []
  }

  /** A send waits for room, and reports success exactly when the sender's channel still has its receiver;
      a close frame is queued exactly when there is room at once. */
  predicate ServerSendFits(l: Link, capacity: Capacity, a: S.Action)
  {
    match a
    case SendInit(ok) => l.Accepts(capacity) && ok == l.open
    case SendReady(ok) => l.Accepts(capacity) && ok == l.open
    case CloseSend(queued) => queued == l.Takes(capacity)
    case EmitSend(_) => l.Accepts(capacity)
    case SendDisconnect => l.Accepts(capacity)
    case _ => true
  }

  predicate ClientSendFits(l: Link, capacity: Capacity, a: C.Action)
  {
    match a
    case SendInit(ok) => l.Accepts(capacity) && ok == l.open
    case CloseSend(queued) => queued == l.Takes(capacity)
    case EmitSend(_, ok) => l.Accepts(capacity) && ok == l.open
    case Ping => l.Accepts(capacity)
    case _ => true
  }

  /** `packet` is the next one to arrive. */
  predicate Arrives(l: Link, packet: Packet)
  {
    0 < l.Written() && l.queue[0] == packet
  }

  predicate Can(cfg: Config, p: Pair, step: Step)
  {
    match step
    case Server(a) =>
      p.server.Can(a) && ServerSendFits(p.down, cfg.serverCapacity, a) && (a.Receive? ==> Arrives(p.up, a.packet))
    case Client(a) =>
      p.client.Can(a) && ClientSendFits(p.up, cfg.clientCapacity, a) && (a.Receive? ==> Arrives(p.down, a.packet))
    case WriteDown => 0 < p.down.waiting
    case WriteUp => 0 < p.up.waiting
    case CutDown(keep) => keep <= p.down.Written()
    case CutUp(keep) => keep <= p.up.Written()
    case CloseDown => true
    case CloseUp => true
  }

  function Queue(l: Link, packets: seq<Packet>): Link
  {
    if packets == [] then l else l.Send(packets[0])
  }

  function Do(cfg: Config, p: Pair, step: Step): Pair
    requires Can(cfg, p, step)
  {
    match step
    case Server(a) =>
      Pair(p.server.Do(cfg.server, a), p.client,
           Queue(p.down, ServerSends(a)), if a.Receive? then p.up.Receive() else p.up)
    case Client(a) =>
      Pair(p.server, p.client.Do(cfg.initHandler, a),
           if a.Receive? then p.down.Receive() else p.down, Queue(p.up, ClientSends(a)))
    case CutDown(keep) => p.(down := p.down.Cut(keep))
    case CutUp(keep) => p.(up := p.up.Cut(keep))
    case WriteDown => p.(down := p.down.Write())
    case WriteUp => p.(up := p.up.Write())
    case CloseDown => p.(down := p.down.Close())
    case CloseUp => p.(up := p.up.Close())
  }

  // ---- A packet that is sent once ----

  /** `packet` is in the queue at most once, and only between its sending and its receipt. */
  predicate Once(queue: seq<Packet>, packet: Packet, sent: bool, received: bool)
  {
    multiset(queue)[packet] <= 1 && (packet in queue ==> sent && !received)
  }

  lemma OnceAdd(queue: seq<Packet>, packet: Packet, sent: bool, received: bool, added: Packet)
    requires Once(queue, packet, sent, received)
    ensures added != packet ==> Once(queue + [added], packet, sent, received)
    ensures packet !in queue && sent && !received ==> Once(queue + [packet], packet, sent, received)
  {
  }

  lemma OnceTake(queue: seq<Packet>, packet: Packet, sent: bool, received: bool)
    requires queue != [] && Once(queue, packet, sent, received)
    ensures Once(queue[1..], packet, sent, received || queue[0] == packet)
  {
    assert queue == [queue[0]] + queue[1..];
    assert multiset(queue) == multiset{queue[0]} + multiset(queue[1..]);
    assert packet in queue[1..] ==> 0 < multiset(queue[1..])[packet];
  }

  lemma OnceCut(queue: seq<Packet>, packet: Packet, sent: bool, received: bool, keep: nat)
    requires keep <= |queue| && Once(queue, packet, sent, received)
    ensures Once(queue[..keep], packet, sent, received)
  {
    assert queue == queue[..keep] + queue[keep..];
    assert multiset(queue) == multiset(queue[..keep]) + multiset(queue[keep..]);
  }

  // ---- The joint invariant ----

  /** The downward queue holds each of Init and Ready at most once, and what the client has received was sent. */
  predicate DownInv(queue: seq<Packet>, s: S.Traffic, c: C.Traffic)
  {
    && Once(queue, InitPacket, s.initSent, c.initReceived)
    && Once(queue, ReadyPacket, s.readySent, c.readyReceived)
    && (c.initReceived ==> s.initSent)
    && (c.readyReceived ==> s.readySent)
    && (forall i :: 0 <= i < |queue| ==> FromServer(queue[i]))
  }

  /** The upward queue holds Init at most once, what the server has received was sent, and a client that has not
      entered five live states, that is, has not been Ready, has queued no event. */
  predicate UpInv(queue: seq<Packet>, c: C.Traffic, entered: nat, s: S.Traffic)
  {
    && Once(queue, InitPacket, c.initSent, s.initReceived)
    && (s.initReceived ==> c.initSent)
    && (forall i :: 0 <= i < |queue| ==> FromClient(queue[i], entered))
  }

  predicate FromServer(packet: Packet)
  {
    packet.InitPacket? || packet.ReadyPacket? || packet.EventPacket? || packet.DisconnectPacket? || packet.CloseFrame?
  }

  predicate FromClient(packet: Packet, entered: nat)
  {
    packet.InitPacket? || packet.PingFrame? || packet.CloseFrame? || (packet.EventPacket? && entered == 5)
  }

  /** What has arrived is a prefix of what was queued, and unless the wire has failed the rest is on its way;
      what was dispatched is a prefix of what has arrived, and all of it while the server is alive. */
  predicate EventInv(up: Link, queued: seq<Message>, s: S.Traffic, live: bool)
  {
    && s.arrived + Events(up.queue) <= queued
    && (!up.cut ==> s.arrived + Events(up.queue) == queued)
    && s.dispatched <= s.arrived
    && (live ==> s.dispatched == s.arrived)
  }

  predicate Inv(cfg: Config, p: Pair)
  {
    && p.server.Inv(cfg.server) && p.client.Inv()
    && DownInv(p.down.queue, p.server.traffic, p.client.traffic)
    && UpInv(p.up.queue, p.client.traffic, |p.client.control.entered|, p.server.traffic)
    && EventInv(p.up, p.client.traffic.queued, p.server.traffic, S.Live(p.server.control.state))
  }

  lemma InvInit(cfg: Config)
    ensures Inv(cfg, NEW_PAIR)
  {
    S.InvInit(cfg.server);
  }

  lemma DownAdd(queue: seq<Packet>, s: S.Traffic, s': S.Traffic, c: C.Traffic, packet: Packet)
    requires DownInv(queue, s, c) && FromServer(packet)
    requires s'.initSent == (s.initSent || packet == InitPacket) && s'.readySent == (s.readySent || packet == ReadyPacket)
    requires (packet == InitPacket ==> !s.initSent) && (packet == ReadyPacket ==> !s.readySent)
    ensures DownInv(queue + [packet], s', c)
  {
    OnceAdd(queue, InitPacket, s'.initSent, c.initReceived, packet);
    OnceAdd(queue, ReadyPacket, s'.readySent, c.readyReceived, packet);
  }

  lemma DownServer(k: S.Control, s: S.Traffic, down: Link, c: C.Traffic, a: S.Action)
    requires S.TrafficInv(k, s) && S.Enabled(k, a) && (a.SendInit? || a.SendReady? ==> a.ok == down.open)
    requires DownInv(down.queue, s, c)
    ensures DownInv(Queue(down, ServerSends(a)).queue, S.TrafficStep(k, s, a), c)
  {
    if ServerSends(a) != [] && down.open && !down.cut {
      DownAdd(down.queue, s, S.TrafficStep(k, s, a), c, ServerSends(a)[0]);
    } else {
      assert Queue(down, ServerSends(a)).queue == down.queue;
    }
  }

  lemma DownClient(down: Link, s: S.Traffic, c: C.Traffic, a: C.Action)
    requires a.Receive? ==> down.queue != [] && down.queue[0] == a.packet
    requires DownInv(down.queue, s, c)
    ensures DownInv(if a.Receive? then down.queue[1..] else down.queue, s, C.TrafficStep(c, a))
  {
    if a.Receive? {
      OnceTake(down.queue, InitPacket, s.initSent, c.initReceived);
      OnceTake(down.queue, ReadyPacket, s.readySent, c.readyReceived);
    }
  }

  lemma UpClient(k: C.Control, pending: C.Pending, c: C.Traffic, up: Link, s: S.Traffic, entered: nat, a: C.Action)
    requires C.ControlInv(k) && C.PendingInv(k, pending) && C.TrafficInv(k, c)
    requires C.Enabled(k, a) && C.PendingEnabled(pending, a) && (a.SendInit? ==> a.ok == up.open)
    requires |k.entered| <= entered <= 5
    requires UpInv(up.queue, c, |k.entered|, s)
    ensures UpInv(Queue(up, ClientSends(a)).queue, C.TrafficStep(c, a), entered, s)
  {
    if ClientSends(a) != [] {
      SentByClient(k, pending, c, a);
      UpAdd(up.queue, c, C.TrafficStep(c, a), |k.entered|, entered, s, ClientSends(a)[0]);
    }
  }

  lemma UpAdd(queue: seq<Packet>, c: C.Traffic, c': C.Traffic, entered: nat, entered': nat, s: S.Traffic, packet: Packet)
    requires UpInv(queue, c, entered, s) && FromClient(packet, entered') && entered <= entered' <= 5
    requires packet == InitPacket ==> !c.initSent
    requires c'.initSent == c.initSent || (c'.initSent && packet == InitPacket)
    ensures UpInv(queue, c', entered', s)
    ensures c'.initSent == (c.initSent || packet == InitPacket) ==> UpInv(queue + [packet], c', entered', s)
  {
    OnceAdd(queue, InitPacket, c'.initSent, s.initReceived, packet);
  }

  /** A client sends Init once, and an event only after it has been Ready. */
  lemma SentByClient(k: C.Control, pending: C.Pending, c: C.Traffic, a: C.Action)
    requires C.ControlInv(k) && C.PendingInv(k, pending) && C.TrafficInv(k, c)
    requires C.Enabled(k, a) && C.PendingEnabled(pending, a) && ClientSends(a) != []
    ensures FromClient(ClientSends(a)[0], |k.entered|)
    ensures ClientSends(a)[0] == InitPacket <==> a.SendInit?
    ensures a.SendInit? ==> !c.initSent
    ensures C.TrafficStep(c, a).initSent == (c.initSent || (a.SendInit? && a.ok))
  {
  }

  lemma UpServer(k: S.Control, s: S.Traffic, up: Link, c: C.Traffic, entered: nat, a: S.Action)
    requires a.Receive? ==> up.queue != [] && up.queue[0] == a.packet
    requires UpInv(up.queue, c, entered, s)
    ensures UpInv(if a.Receive? then up.queue[1..] else up.queue, c, entered, S.TrafficStep(k, s, a))
  {
    if a.Receive? {
      OnceTake(up.queue, InitPacket, c.initSent, s.initReceived);
    }
  }

  /** A live server that an event reaches is Ready, so nothing that arrives while it lives is dropped. */
  lemma EventsServer(cfg: S.Config, k: S.Control, s: S.Traffic, up: Link, queued: seq<Message>, a: S.Action)
    requires S.ControlInv(k) && S.Enabled(k, a)
    requires a.Receive? ==> up.queue != [] && up.queue[0] == a.packet
    requires a.Receive? && a.packet.EventPacket? && S.Live(k.state) ==> k.state.Ready?
    requires EventInv(up, queued, s, S.Live(k.state))
    ensures EventInv(if a.Receive? then up.Receive() else up, queued, S.TrafficStep(k, s, a),
                     S.Live(S.Step(cfg, k, a).state))
  {
    var s' := S.TrafficStep(k, s, a);
    assert S.Live(S.Step(cfg, k, a).state) ==> S.Live(k.state);
    if a.Receive? && a.packet.EventPacket? {
      assert Events(up.queue) == [a.packet.message] + Events(up.queue[1..]);
      assert s'.arrived + Events(up.queue[1..]) == s.arrived + Events(up.queue);
    } else {
      assert s'.arrived == s.arrived && s'.dispatched == s.dispatched;
      assert a.Receive? ==> Events(up.queue) == Events(up.queue[1..]);
    }
  }

  lemma EventsClient(up: Link, c: C.Traffic, s: S.Traffic, live: bool, a: C.Action)
    requires a.EmitSend? ==> a.ok == up.open
    requires EventInv(up, c.queued, s, live)
    ensures EventInv(Queue(up, ClientSends(a)), C.TrafficStep(c, a).queued, s, live)
  {
    if ClientSends(a) != [] {
      EventsAdd(up.queue, ClientSends(a)[0]);
    }
    if a.EmitSend? {
      assert C.TrafficStep(c, a).queued == if a.ok then c.queued + [a.message] else c.queued;
    } else {
      assert C.TrafficStep(c, a).queued == c.queued;
    }
  }

  lemma EventsCut(up: Link, queued: seq<Message>, s: S.Traffic, live: bool, keep: nat)
    requires keep <= |up.queue| && EventInv(up, queued, s, live)
    ensures EventInv(up.Cut(keep), queued, s, live)
  {
    EventsConcat(up.queue[..keep], up.queue[keep..]);
    assert up.queue == up.queue[..keep] + up.queue[keep..];
  }

  /** If the client was ever Ready then so was the server; if the server ever was Ready, or has gone beyond awaiting
      the client's Init, then the client had reached AwaitingReady. */
  lemma Agreed(cfg: Config, p: Pair)
    requires Inv(cfg, p)
    ensures |p.client.control.entered| == 5 ==> |p.server.control.entered| == 5
    ensures 2 < |p.server.control.entered| ==> 4 <= |p.client.control.entered|
    ensures 2 < |p.client.control.entered| ==> 2 <= |p.server.control.entered|
  {
  }

  lemma ServerStep(cfg: Config, p: Pair, a: S.Action)
    requires Inv(cfg, p) && Can(cfg, p, Server(a))
    ensures Inv(cfg, Do(cfg, p, Server(a)))
  {
    Agreed(cfg, p);
    assert a.Receive? ==> FromClient(a.packet, |p.client.control.entered|);
    S.InvStep(cfg.server, p.server, a);
    DownServer(p.server.control, p.server.traffic, p.down, p.client.traffic, a);
    UpServer(p.server.control, p.server.traffic, p.up, p.client.traffic, |p.client.control.entered|, a);
    EventsServer(cfg.server, p.server.control, p.server.traffic, p.up, p.client.traffic.queued, a);
  }

  lemma ClientStep(cfg: Config, p: Pair, a: C.Action)
    requires Inv(cfg, p) && Can(cfg, p, Client(a))
    ensures Inv(cfg, Do(cfg, p, Client(a)))
  {
    var k := p.client.control;
    C.HistoryKept(cfg.initHandler, k, p.client.pending, a);
    C.InvStep(cfg.initHandler, p.client, a);
    DownClient(p.down, p.server.traffic, p.client.traffic, a);
    UpClient(k, p.client.pending, p.client.traffic, p.up, p.server.traffic, |C.Step(cfg.initHandler, k, a).entered|, a);
    EventsClient(p.up, p.client.traffic, p.server.traffic, S.Live(p.server.control.state), a);
  }

  lemma DownCut(queue: seq<Packet>, s: S.Traffic, c: C.Traffic, keep: nat)
    requires keep <= |queue| && DownInv(queue, s, c)
    ensures DownInv(queue[..keep], s, c)
  {
    OnceCut(queue, InitPacket, s.initSent, c.initReceived, keep);
    OnceCut(queue, ReadyPacket, s.readySent, c.readyReceived, keep);
  }

  lemma UpCut(queue: seq<Packet>, c: C.Traffic, entered: nat, s: S.Traffic, keep: nat)
    requires keep <= |queue| && UpInv(queue, c, entered, s)
    ensures UpInv(queue[..keep], c, entered, s)
  {
    OnceCut(queue, InitPacket, c.initSent, s.initReceived, keep);
  }

  /** When the write task ends, the wire is as if it had failed behind it, unless the channel was empty. */
  lemma EventsClose(up: Link, queued: seq<Message>, s: S.Traffic, live: bool)
    requires EventInv(up, queued, s, live)
    ensures EventInv(up.Close(), queued, s, live)
  {
    EventsCut(up, queued, s, live, up.Written());
    assert up.queue[..|up.queue|] == up.queue;
  }

  lemma LinkStep(cfg: Config, p: Pair, step: Step)
    requires Inv(cfg, p) && Can(cfg, p, step) && !step.Server? && !step.Client?
    ensures Inv(cfg, Do(cfg, p, step))
  {
    var s := p.server.traffic;
    var c := p.client.traffic;
    var n := |p.client.control.entered|;
    match step
    case CutDown(keep) => DownCut(p.down.queue, s, c, keep);
    case CloseDown => DownCut(p.down.queue, s, c, p.down.Written());
    case CutUp(keep) =>
      UpCut(p.up.queue, c, n, s, keep);
      EventsCut(p.up, c.queued, s, S.Live(p.server.control.state), keep);
    case CloseUp =>
      UpCut(p.up.queue, c, n, s, p.up.Written());
      EventsClose(p.up, c.queued, s, S.Live(p.server.control.state));
    case _ =>
  }

  lemma InvStep(cfg: Config, p: Pair, step: Step)
    requires Inv(cfg, p) && Can(cfg, p, step)
    ensures Inv(cfg, Do(cfg, p, step))
  {
    match step
    case Server(a) => ServerStep(cfg, p, a);
    case Client(a) => ClientStep(cfg, p, a);
    case _ => LinkStep(cfg, p, step);
  }

  /** `steps` lead from `p` to `q`. */
  predicate Run(cfg: Config, p: Pair, steps: seq<Step>, q: Pair)
    decreases |steps|
  {
    if steps == [] then p == q
    else Can(cfg, p, steps[0]) && Run(cfg, Do(cfg, p, steps[0]), steps[1..], q)
  }

  lemma {:induction false} InvRun(cfg: Config, p: Pair, steps: seq<Step>, q: Pair)
    requires Inv(cfg, p) && Run(cfg, p, steps, q)
    ensures Inv(cfg, q)
    decreases |steps|
  {
    if steps != [] {
      InvStep(cfg, p, steps[0]);
      InvRun(cfg, Do(cfg, p, steps[0]), steps[1..], q);
    }
  }

  // ---- What holds of every session and its connection ----

  /** The server's action fails because of the state it finds. */
  predicate ServerRefuses(state: S.ConnectionState, a: S.Action)
  {
    match a
    case InitEnsure => !state.Created?
    case InitCas => !state.Created?
    case Receive(InitPacket) => !state.AwaitingInit?
    case InitPacketCas => !state.AwaitingInit?
    case ActivateCas => !state.Initiating?
    case EnsureActivating => !state.Activating?
    case ReadyCas => !state.Activating?
    case _ => false
  }

  predicate ClientRefuses(state: C.SessionState, a: C.Action)
  {
    match a
    case Receive(InitPacket) => !state.AwaitingInit?
    case Receive(ReadyPacket) => !state.AwaitingReady?
    case InitPacketCas => !state.AwaitingInit?
    case AwaitReadyCas => !state.Initiating?
    case ReadyCas => !state.AwaitingReady?
    case _ => false
  }

  lemma ServerRefusesWhenClosing(cfg: S.Config, c: S.Connection, entered: nat, queue: seq<Packet>, sent: C.Traffic, a: S.Action)
    requires S.ControlInv(c.control) && S.TrafficInv(c.control, c.traffic) && UpInv(queue, sent, entered, c.traffic)
    requires sent.initSent ==> 2 <= |c.control.entered|
    requires S.Enabled(c.control, a) && (a.Receive? ==> queue != [] && queue[0] == a.packet)
    ensures ServerRefuses(c.control.state, a) ==> !S.Live(c.control.state)
  {
  }

  lemma ClientRefusesWhenClosing(c: C.Session, queue: seq<Packet>, sent: S.Traffic, a: C.Action)
    requires C.ControlInv(c.control) && C.TrafficInv(c.control, c.traffic) && DownInv(queue, sent, c.traffic)
    requires sent.readySent ==> 4 <= |c.control.entered|
    requires C.Enabled(c.control, a) && (a.Receive? ==> queue != [] && queue[0] == a.packet)
    ensures ClientRefuses(c.control.state, a) ==> !C.Live(c.control.state)
  {
  }

  /** Joint handshake safety: an "invalid state" error, or a failed transition, on either side
      only ever happens on a side that is already Closing or Closed. */
  lemma RefusesOnlyWhenClosing(cfg: Config, steps: seq<Step>, p: Pair, step: Step)
    requires Run(cfg, NEW_PAIR, steps, p) && Can(cfg, p, step)
    ensures step.Server? && ServerRefuses(p.server.control.state, step.s) ==> !S.Live(p.server.control.state)
    ensures step.Client? && ClientRefuses(p.client.control.state, step.c) ==> !C.Live(p.client.control.state)
  {
    InvInit(cfg);
    InvRun(cfg, NEW_PAIR, steps, p);
    Agreed(cfg, p);
    match step
    case Server(a) =>
      ServerRefusesWhenClosing(cfg.server, p.server, |p.client.control.entered|, p.up.queue, p.client.traffic, a);
    case Client(a) =>
      ClientRefusesWhenClosing(p.client, p.down.queue, p.server.traffic, a);
    case _ =>
  }

  /** No frame that reaches either side between two honest peers makes its read loop fail to decode. */
  lemma NothingUndecodable(cfg: Config, steps: seq<Step>, p: Pair, step: Step)
    requires Run(cfg, NEW_PAIR, steps, p) && Can(cfg, p, step)
    ensures step.Server? && step.s.Receive? ==>
              !step.s.packet.Undecodable? && !step.s.packet.KeylessEvent? && !step.s.packet.ReadyPacket?
    ensures step.Client? && step.c.Receive? ==>
              !step.c.packet.Undecodable? && !step.c.packet.KeylessEvent? && !step.c.packet.PingFrame?
  {
    InvInit(cfg);
    InvRun(cfg, NEW_PAIR, steps, p);
    SentByPeers(cfg, p);
  }

  lemma SentByPeers(cfg: Config, p: Pair)
    requires Inv(cfg, p)
    ensures p.up.queue != [] ==> FromClient(p.up.queue[0], |p.client.control.entered|)
    ensures p.down.queue != [] ==> FromServer(p.down.queue[0])
  {
  }

  /** How often a side receives a packet during these steps. */
  function ServerReceipts(steps: seq<Step>, packet: Packet): nat
  {
    if steps == [] then 0
    else (if steps[0] == Server(S.Receive(packet)) then 1 else 0) + ServerReceipts(steps[1..], packet)
  }

  function ClientReceipts(steps: seq<Step>, packet: Packet): nat
  {
    if steps == [] then 0
    else (if steps[0] == Client(C.Receive(packet)) then 1 else 0) + ClientReceipts(steps[1..], packet)
  }

  function Left(received: bool): nat
  {
    if received then 0 else 1
  }

  lemma ServerReceiptStep(k: S.Control, s: S.Traffic, queue: seq<Packet>, sent: C.Traffic, entered: nat, a: S.Action)
    requires UpInv(queue, sent, entered, s) && (a.Receive? ==> queue != [] && queue[0] == a.packet)
    ensures Left(S.TrafficStep(k, s, a).initReceived) + ServerReceipts([Server(a)], InitPacket) <= Left(s.initReceived)
  {
  }

  lemma ClientReceiptStep(c: C.Traffic, queue: seq<Packet>, sent: S.Traffic, a: C.Action)
    requires DownInv(queue, sent, c) && (a.Receive? ==> queue != [] && queue[0] == a.packet)
    ensures var c' := C.TrafficStep(c, a);
            && Left(c'.initReceived) + ClientReceipts([Client(a)], InitPacket) <= Left(c.initReceived)
            && Left(c'.readyReceived) + ClientReceipts([Client(a)], ReadyPacket) <= Left(c.readyReceived)
  {
  }

  lemma ReceiptStep(cfg: Config, p: Pair, step: Step)
    requires Inv(cfg, p) && Can(cfg, p, step)
    ensures var q := Do(cfg, p, step);
            && Left(q.server.traffic.initReceived) + ServerReceipts([step], InitPacket) <= Left(p.server.traffic.initReceived)
            && Left(q.client.traffic.initReceived) + ClientReceipts([step], InitPacket) <= Left(p.client.traffic.initReceived)
            && Left(q.client.traffic.readyReceived) + ClientReceipts([step], ReadyPacket) <= Left(p.client.traffic.readyReceived)
  {
    match step
    case Server(a) =>
      ServerReceiptStep(p.server.control, p.server.traffic, p.up.queue, p.client.traffic, |p.client.control.entered|, a);
    case Client(a) => ClientReceiptStep(p.client.traffic, p.down.queue, p.server.traffic, a);
    case _ =>
  }

  lemma {:induction false} ReceiptRun(cfg: Config, p: Pair, steps: seq<Step>, q: Pair)
    requires Inv(cfg, p) && Run(cfg, p, steps, q)
    ensures ServerReceipts(steps, InitPacket) <= Left(p.server.traffic.initReceived)
    ensures ClientReceipts(steps, InitPacket) <= Left(p.client.traffic.initReceived)
    ensures ClientReceipts(steps, ReadyPacket) <= Left(p.client.traffic.readyReceived)
    decreases |steps|
  {
    if steps != [] {
      ReceiptStep(cfg, p, steps[0]);
      InvStep(cfg, p, steps[0]);
      ReceiptRun(cfg, Do(cfg, p, steps[0]), steps[1..], q);
      ReceiptsOfFirst(steps);
    }
  }

  lemma ReceiptsOfFirst(steps: seq<Step>)
    requires steps != []
    ensures forall m: Packet :: ServerReceipts(steps, m) == ServerReceipts([steps[0]], m) + ServerReceipts(steps[1..], m)
    ensures forall m: Packet :: ClientReceipts(steps, m) == ClientReceipts([steps[0]], m) + ClientReceipts(steps[1..], m)
  {
  }

  /** In every run the server receives Init at most once, and the client receives Init and Ready at most once each. */
  lemma ReceivedAtMostOnce(cfg: Config, steps: seq<Step>, p: Pair)
    requires Run(cfg, NEW_PAIR, steps, p)
    ensures ServerReceipts(steps, InitPacket) <= 1
    ensures ClientReceipts(steps, InitPacket) <= 1 && ClientReceipts(steps, ReadyPacket) <= 1
  {
    InvInit(cfg);
    ReceiptRun(cfg, NEW_PAIR, steps, p);
  }

  /** Agreement: a client that ever became Ready has a server that became Ready before, and a server that became Ready
      has a client that had reached AwaitingReady. */
  lemma Agreement(cfg: Config, steps: seq<Step>, p: Pair)
    requires Run(cfg, NEW_PAIR, steps, p)
    ensures C.Ready in p.client.control.entered ==> S.Ready in p.server.control.entered
    ensures S.Ready in p.server.control.entered ==> C.AwaitingReady in p.client.control.entered
  {
    InvInit(cfg);
    InvRun(cfg, NEW_PAIR, steps, p);
    Agreed(cfg, p);
    S.ReadyIsFifth(p.server.control);
    C.EnteredByCount(p.client.control);
  }

  /** When the client is Ready and its connection is still Ready, the connection is in all three indexes. */
  lemma ReadyMeansIndexed(cfg: Config, steps: seq<Step>, p: Pair)
    requires Run(cfg, NEW_PAIR, steps, p)
    requires p.client.Ready() && p.server.control.state.Ready?
    ensures p.server.Indexed()
  {
    InvInit(cfg);
    InvRun(cfg, NEW_PAIR, steps, p);
  }

  /** A client event never reaches a connection that is still setting up. */
  lemma EventsArriveReady(cfg: Config, steps: seq<Step>, p: Pair, m: Message)
    requires Run(cfg, NEW_PAIR, steps, p) && Can(cfg, p, Server(S.Receive(EventPacket(m))))
    ensures p.server.control.state.Ready? || !S.Live(p.server.control.state)
  {
    InvInit(cfg);
    InvRun(cfg, NEW_PAIR, steps, p);
    Agreed(cfg, p);
    assert FromClient(p.up.queue[0], |p.client.control.entered|);
  }

  /** What the server dispatches is a prefix of what the client queued, and unless the wire failed or the server began
      to close, what it has not dispatched yet is still on its way. */
  lemma DispatchedIsPrefix(cfg: Config, steps: seq<Step>, p: Pair)
    requires Run(cfg, NEW_PAIR, steps, p)
    ensures p.server.traffic.dispatched <= p.client.traffic.queued
    ensures !p.up.cut && S.Live(p.server.control.state) ==>
              p.server.traffic.dispatched + Events(p.up.queue) == p.client.traffic.queued
  {
    InvInit(cfg);
    InvRun(cfg, NEW_PAIR, steps, p);
  }
}
