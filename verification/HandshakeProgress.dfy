/** The handshake that nothing disturbs: no close, no failing handler, no failing wire, no traffic but the handshake. */
module HandshakeProgress {
  import opened Packets
  import opened Handshake
  import S = ServerConnection
  import C = ClientSession

  predicate ServerHandshakes(a: S.Action)
  {
    match a
    case InitEnsure => true
    case InitRequestStart => true
    case InitRequestDone(ok) => ok
    case InitCas => true
    case SendInit(_) => true
    case Receive(packet) => true
    case InitPacketCas => true
    case HandlerStart => true
    case HandlerDone(ok) => ok
    case ActivateCas => true
    case EnsureActivating => true
    case ReadyCas => true
    case Insert => true
    case SendReady(_) => true
    case _ => false
  }

  predicate ClientHandshakes(a: C.Action)
  {
    match a
    case Init => true
    case Spawn => true
    case Receive(_) => true
    case InitPacketCas => true
    case HandlerStart => true
    case HandlerDone(ok) => ok
    case AwaitReadyCas => true
    case SendInit(_) => true
    case ReadyCas => true
    case NotifyWaiters => true
    case _ => false
  }

  predicate Handshakes(step: Step)
  {
    (step.Server? && ServerHandshakes(step.s)) || (step.Client? && ClientHandshakes(step.c)) || step.WriteDown? || step.WriteUp?
  }

  /** Both sides are Ready, the connection is indexed, the forwarder has been woken and nothing is in flight. */
  predicate Complete(p: Pair)
  {
    && p.server.control.state.Ready? && p.server.control.main.MServe? && p.server.control.read.RWait? && p.server.Indexed()
    && p.client.control.state.Ready? && p.client.control.owner.OServe? && p.client.control.read.RWait?
    && p.down.queue == p.up.queue == []
  }

  predicate QuietServer(k: S.Control, t: S.Traffic)
  {
    var n := |k.entered|;
    && S.ControlInv(k) && S.Live(k.state)
    && !k.main.MFailed? && !k.CleaningUp() && !k.read.REnded?
    && (k.main.MSendInit? || k.main.MServe? <==> 2 <= n)
    && (t.initSent <==> k.main.MServe?)
    && (t.initReceived <==> k.read.RInitCas? || 3 <= n)
    && (t.readySent <==> n == 5 && k.read.RWait?)
  }

  predicate QuietClient(k: C.Control, pending: C.Pending, t: C.Traffic)
  {
    var n := |k.entered|;
    && C.ControlInv(k) && C.PendingInv(k, pending) && C.Live(k.state)
    && !k.owner.OCleanup? && !k.owner.ODone? && !k.read.REnded?
    && (t.initReceived <==> k.read.RInitCas? || 3 <= n)
    && (t.initSent <==> (n == 4 && !k.read.RSendInit?) || n == 5)
    && (t.readyReceived <==> k.read.RReadyCas? || n == 5)
  }

  predicate QuietLinks(p: Pair)
  {
    var s := p.server.traffic;
    var c := p.client.traffic;
    && p.down.open && !p.down.cut && p.up.open && !p.up.cut
    && (c.initReceived ==> s.initSent) && (s.initReceived ==> c.initSent) && (c.readyReceived ==> s.readySent)
    && p.down.waiting <= |p.down.queue| && p.up.waiting <= |p.up.queue|
    && p.down.queue == InFlight(InitPacket, s.initSent, c.initReceived) + InFlight(ReadyPacket, s.readySent, c.readyReceived)
    && p.up.queue == InFlight(InitPacket, c.initSent, s.initReceived)
  }

  function InFlight(packet: Packet, sent: bool, received: bool): seq<Packet>
  {
    if sent && !received then [packet] else []
  }

  predicate Quiet(p: Pair)
  {
    QuietServer(p.server.control, p.server.traffic) && QuietClient(p.client.control, p.client.pending, p.client.traffic) && QuietLinks(p)
  }

  lemma QuietServerStep(cfg: S.Config, k: S.Control, t: S.Traffic, a: S.Action)
    requires QuietServer(k, t) && S.Enabled(k, a) && ServerHandshakes(a)
    requires a.SendInit? || a.SendReady? ==> a.ok
    requires a.Receive? ==> a.packet == InitPacket && !t.initReceived && k.state.AwaitingInit?
    ensures QuietServer(S.Step(cfg, k, a), S.TrafficStep(k, t, a))
  {
    S.ControlStep(cfg, k, a);
  }

  lemma ServerRankGrows(cfg: S.Config, k: S.Control, t: S.Traffic, a: S.Action)
    requires QuietServer(k, t) && S.Enabled(k, a) && ServerHandshakes(a)
    requires a.SendInit? || a.SendReady? ==> a.ok
    requires a.Receive? ==> a.packet == InitPacket && !t.initReceived && k.state.AwaitingInit?
    ensures ServerRank(S.Step(cfg, k, a)) > ServerRank(k)
  {
  }

  lemma QuietClientStep(hasHandler: bool, k: C.Control, pending: C.Pending, t: C.Traffic, a: C.Action)
    requires QuietClient(k, pending, t) && C.Enabled(k, a) && ClientHandshakes(a)
    requires a.SendInit? ==> a.ok
    requires a.Receive? ==> (a.packet == InitPacket && k.state.AwaitingInit?) || (a.packet == ReadyPacket && k.state.AwaitingReady?)
    ensures QuietClient(C.Step(hasHandler, k, a), C.PendingStep(k, pending, a), C.TrafficStep(t, a))
    ensures ClientRank(C.Step(hasHandler, k, a)) > ClientRank(k)
  {
  }

  function ServerRank(k: S.Control): nat
  {
    (match k.main
     case MEnsure => 0
     case MRequest => 1
     case MRequesting => 2
     case MCas => 3
     case MSendInit => 4
     case _ => 5)
    + (match k.read
       case RWait => if |k.entered| < 5 then 0 else 15
       case RInitCas => 1
       case RBefore(h) => if h == S.InitResponse then 2 else if h == S.Middleware then 5 else 8
       case RRunning(h) => if h == S.InitResponse then 3 else if h == S.Middleware then 6 else 9
       case RActivate => 4
       case REnsure => 7
       case RReady => 10
       case RInsert(i) => if i == 0 then 11 else if i == 1 then 12 else 13
       case RSendReady => 14
       case REnded => 15)
  }

  function ClientRank(k: C.Control): nat
  {
    match k.read
    case RNone => if k.owner.OInit? then 0 else 1
    case RWait => if |k.entered| < 4 then 2 else if |k.entered| == 4 then 8 else 11
    case RInitCas => 3
    case RBefore => 4
    case RRunning => 5
    case RAwaitReady => 6
    case RSendInit => 7
    case RReadyCas => 9
    case RNotify => 10
    case REnded => 11
  }

  lemma QuietStep(cfg: Config, p: Pair, step: Step)
    requires Quiet(p) && Inv(cfg, p) && Can(cfg, p, step) && Handshakes(step)
    ensures Quiet(Do(cfg, p, step)) && Rank(Do(cfg, p, step)) > Rank(p)
  {
    match step
    case Server(a) => QuietServerActs(cfg, p, a);
    case Client(a) => QuietClientActs(cfg, p, a);
    case _ =>
  }

  lemma QuietServerActs(cfg: Config, p: Pair, a: S.Action)
    requires Quiet(p) && Can(cfg, p, Server(a)) && ServerHandshakes(a)
    ensures Quiet(Do(cfg, p, Server(a))) && Rank(Do(cfg, p, Server(a))) > Rank(p)
  {
    QuietServerStep(cfg.server, p.server.control, p.server.traffic, a);
    ServerRankGrows(cfg.server, p.server.control, p.server.traffic, a);
    QuietServerLinks(cfg, p, a);
  }

  lemma QuietClientActs(cfg: Config, p: Pair, a: C.Action)
    requires Quiet(p) && Can(cfg, p, Client(a)) && ClientHandshakes(a)
    ensures Quiet(Do(cfg, p, Client(a))) && Rank(Do(cfg, p, Client(a))) > Rank(p)
  {
    if a.Receive? {
      QuietClientReceives(cfg, p, a);
    }
    QuietClientStep(cfg.initHandler, p.client.control, p.client.pending, p.client.traffic, a);
    QuietClientLinks(cfg, p, a);
  }

  lemma QuietServerLinks(cfg: Config, p: Pair, a: S.Action)
    requires Quiet(p) && Can(cfg, p, Server(a)) && ServerHandshakes(a)
    ensures QuietLinks(Do(cfg, p, Server(a))) && Written(Do(cfg, p, Server(a))) == Written(p)
  {
  }

  /** An Init that arrives finds the client awaiting it, and so does a Ready. */
  lemma QuietClientReceives(cfg: Config, p: Pair, a: C.Action)
    requires Quiet(p) && Can(cfg, p, Client(a)) && a.Receive?
    ensures (a.packet == InitPacket && p.client.control.state.AwaitingInit?)
         || (a.packet == ReadyPacket && p.client.control.state.AwaitingReady?)
  {
  }

  lemma QuietClientLinks(cfg: Config, p: Pair, a: C.Action)
    requires Quiet(p) && Can(cfg, p, Client(a)) && ClientHandshakes(a)
    ensures QuietLinks(Do(cfg, p, Client(a))) && Written(Do(cfg, p, Client(a))) == Written(p)
  {
    if a.Receive? {
      QuietClientReceipt(cfg, p, a.packet);
    }
  }

  lemma QuietClientReceipt(cfg: Config, p: Pair, packet: Packet)
    requires Quiet(p) && Can(cfg, p, Client(C.Receive(packet)))
    ensures QuietLinks(Do(cfg, p, Client(C.Receive(packet))))
    ensures Written(Do(cfg, p, Client(C.Receive(packet)))) == Written(p)
  {
    QuietClientReceives(cfg, p, C.Receive(packet));
  }

  function Count(b: bool): nat
  {
    if b then 1 else 0
  }

  /** How many of the protocol packets sent have left their channel. */
  function Written(p: Pair): int
  {
    Count(p.server.traffic.initSent) + Count(p.server.traffic.readySent) + Count(p.client.traffic.initSent)
    - p.down.waiting - p.up.waiting
  }

  function Rank(p: Pair): int
  {
    ServerRank(p.server.control) + ClientRank(p.client.control) + Written(p)
  }

  function ServerNext(k: S.Control): S.Action
  {
    match k.main
    case MEnsure => S.InitEnsure
    case MRequest => S.InitRequestStart
    case MRequesting => S.InitRequestDone(true)
    case MCas => S.InitCas
    case MSendInit => S.SendInit(true)
    case _ =>
      match k.read
      case RInitCas => S.InitPacketCas
      case RBefore(_) => S.HandlerStart
      case RRunning(_) => S.HandlerDone(true)
      case RActivate => S.ActivateCas
      case REnsure => S.EnsureActivating
      case RReady => S.ReadyCas
      case RInsert(_) => S.Insert
      case _ => S.SendReady(true)
  }

  function ClientNext(k: C.Control): C.Action
  {
    match k.read
    case RNone => if k.owner.OInit? then C.Init else C.Spawn
    case RInitCas => C.InitPacketCas
    case RBefore => C.HandlerStart
    case RRunning => C.HandlerDone(true)
    case RAwaitReady => C.AwaitReadyCas
    case RSendInit => C.SendInit(true)
    case RReadyCas => C.ReadyCas
    case _ => C.NotifyWaiters
  }

  predicate ServerWaits(k: S.Control)
  {
    k.main.MServe? && k.read.RWait?
  }

  /** A step that the handshake can take next. */
  function NextStep(p: Pair): Step
    requires !Complete(p)
  {
    if !ServerWaits(p.server.control) then Server(ServerNext(p.server.control))
    else if !p.client.control.read.RWait? then Client(ClientNext(p.client.control))
    else if 0 < p.up.waiting then WriteUp
    else if 0 < p.down.waiting then WriteDown
    else if p.up.queue != [] then Server(S.Receive(p.up.queue[0]))
    else if p.down.queue != [] then Client(C.Receive(p.down.queue[0]))
    else Server(S.InitEnsure)
  }

  lemma ServerCan(k: S.Control, t: S.Traffic, pending: S.Pending)
    requires QuietServer(k, t) && !ServerWaits(k)
    ensures S.Enabled(k, ServerNext(k)) && S.PendingEnabled(pending, ServerNext(k)) && ServerHandshakes(ServerNext(k))
    ensures !ServerNext(k).Receive? && (ServerNext(k).SendInit? || ServerNext(k).SendReady? ==> ServerNext(k).ok)
  {
  }

  lemma ClientCan(k: C.Control, pending: C.Pending, t: C.Traffic)
    requires QuietClient(k, pending, t) && !k.read.RWait?
    ensures C.Enabled(k, ClientNext(k)) && C.PendingEnabled(pending, ClientNext(k)) && ClientHandshakes(ClientNext(k))
    ensures !ClientNext(k).Receive? && !ClientNext(k).EmitSend? && (ClientNext(k).SendInit? ==> ClientNext(k).ok)
  {
  }

  /** When both sides wait for a packet and none is in flight, the handshake is complete. */
  lemma NothingInFlight(cfg: Config, p: Pair)
    requires Quiet(p) && Inv(cfg, p)
    requires ServerWaits(p.server.control) && p.client.control.read.RWait? && p.up.queue == p.down.queue == []
    ensures Complete(p)
  {
  }

  lemma ReceiveCan(cfg: Config, p: Pair)
    ensures p.server.control.read.RWait? && p.up.waiting == 0 && p.up.queue != [] ==> Can(cfg, p, Server(S.Receive(p.up.queue[0])))
    ensures p.client.control.read.RWait? && p.down.waiting == 0 && p.down.queue != [] ==> Can(cfg, p, Client(C.Receive(p.down.queue[0])))
  {
  }

  lemma OwnStepCan(cfg: Config, p: Pair)
    requires Quiet(p)
    ensures !ServerWaits(p.server.control) ==> Can(cfg, p, Server(ServerNext(p.server.control)))
    ensures !p.client.control.read.RWait? ==> Can(cfg, p, Client(ClientNext(p.client.control)))
  {
    if !ServerWaits(p.server.control) {
      ServerCan(p.server.control, p.server.traffic, p.server.pending);
    }
    if !p.client.control.read.RWait? {
      ClientCan(p.client.control, p.client.pending, p.client.traffic);
    }
  }

  lemma NextHandshakes(p: Pair)
    requires Quiet(p) && !Complete(p)
    ensures Handshakes(NextStep(p))
  {
    if !ServerWaits(p.server.control) {
      ServerCan(p.server.control, p.server.traffic, p.server.pending);
    } else if !p.client.control.read.RWait? {
      ClientCan(p.client.control, p.client.pending, p.client.traffic);
    }
  }

  /** Until the handshake is complete, one of its steps can be taken. */
  lemma NotStuck(cfg: Config, p: Pair)
    requires Quiet(p) && Inv(cfg, p) && !Complete(p)
    ensures Can(cfg, p, NextStep(p)) && Handshakes(NextStep(p))
  {
    NextHandshakes(p);
    OwnStepCan(cfg, p);
    ReceiveCan(cfg, p);
    if ServerWaits(p.server.control) && p.client.control.read.RWait? && p.up.queue == [] && p.down.queue == [] {
      NothingInFlight(cfg, p);
    }
  }

  lemma CompleteIsOver(cfg: Config, p: Pair, step: Step)
    requires Quiet(p) && Complete(p) && Handshakes(step)
    ensures !Can(cfg, p, step)
  {
  }

  /** `steps` lead from `p` to `q` and all belong to the handshake. */
  predicate HandshakeRun(cfg: Config, p: Pair, steps: seq<Step>, q: Pair)
    decreases |steps|
  {
    if steps == [] then p == q
    else Can(cfg, p, steps[0]) && Handshakes(steps[0]) && HandshakeRun(cfg, Do(cfg, p, steps[0]), steps[1..], q)
  }

  lemma {:induction false} QuietRun(cfg: Config, p: Pair, steps: seq<Step>, q: Pair)
    requires Quiet(p) && Inv(cfg, p) && HandshakeRun(cfg, p, steps, q)
    ensures Quiet(q) && Inv(cfg, q) && Rank(p) + |steps| <= Rank(q)
    decreases |steps|
  {
    if steps != [] {
      QuietStep(cfg, p, steps[0]);
      InvStep(cfg, p, steps[0]);
      QuietRun(cfg, Do(cfg, p, steps[0]), steps[1..], q);
    }
  }

  lemma QuietInit(cfg: Config)
    ensures Quiet(NEW_PAIR) && Inv(cfg, NEW_PAIR) && Rank(NEW_PAIR) == 0
  {
    InvInit(cfg);
  }

  lemma RankBound(p: Pair)
    requires Quiet(p)
    ensures Rank(p) <= 34
  {
  }

  lemma StuckIffComplete(cfg: Config, p: Pair)
    requires Quiet(p) && Inv(cfg, p)
    ensures (forall step :: Handshakes(step) ==> !Can(cfg, p, step)) <==> Complete(p)
  {
    if Complete(p) {
      forall step | Handshakes(step) ensures !Can(cfg, p, step) {
        CompleteIsOver(cfg, p, step);
      }
    } else {
      NotStuck(cfg, p);
    }
  }

  /** Completion: a handshake that nothing disturbs takes at most 34 steps, and it can stop only when both sides are
      Ready, the connection is in all three indexes and the forwarder has been woken. */
  lemma UndisturbedHandshakeCompletes(cfg: Config, steps: seq<Step>, p: Pair)
    requires HandshakeRun(cfg, NEW_PAIR, steps, p)
    ensures |steps| <= 34
    ensures (forall step :: Handshakes(step) ==> !Can(cfg, p, step)) <==> Complete(p)
  {
    QuietInit(cfg);
    QuietRun(cfg, NEW_PAIR, steps, p);
    RankBound(p);
    StuckIffComplete(cfg, p);
  }
}
