/** One client session under any interleaving of its tasks: the connection loop that runs `init` and `cleanup`,
    the read task that handles Init and Ready, and any number of tasks that call `close`, ping or queue an event. */
module ClientSession {
  import opened Packets

  /** The source also declares a state `Readying`, which nothing ever enters. */
  datatype SessionState = Created | AwaitingInit | Initiating | AwaitingReady | Ready | Closing | Closed

  predicate Live(state: SessionState)
  {
    !state.Closing? && !state.Closed?
  }

  const HANDSHAKE: seq<SessionState> := [LiveState(1), LiveState(2), LiveState(3), LiveState(4), LiveState(5)]

  function LiveState(n: nat): SessionState
    requires 1 <= n <= 5
  {
    if n == 1 then Created else if n == 2 then AwaitingInit else if n == 3 then Initiating
    else if n == 4 then AwaitingReady else Ready
  }

  /** Where the connection loop stands with this session. */
  datatype Owner = OInit | OSpawn | OServe | OCleanup | ODone

  /** Where the read task stands. `RNotify` is Ready and has yet to wake the event forwarder. */
  datatype Read =
    | RNone | RWait | RInitCas | RBefore | RRunning | RAwaitReady | RSendInit | RReadyCas | RNotify | REnded

  /** `EndRead` is the end of the stream, `AbortRead` the loop's abort of the read task. */
  datatype Action =
    | Init | Spawn | CleanupStart | CleanupFinish
    | Receive(packet: Packet) | InitPacketCas | HandlerStart | HandlerDone(ok: bool)
    | AwaitReadyCas | SendInit(ok: bool) | ReadyCas | NotifyWaiters | EndRead | AbortRead
    | CloseGet | CloseStore | CloseSend(queued: bool)
    | EmitEnsure | EmitSend(message: Message, ok: bool) | Ping

  datatype Control = Control(state: SessionState, entered: seq<SessionState>, owner: Owner, read: Read) {
    function ReadEnter(next: SessionState, at: Read): Control
    {
      Control(next, entered + [next], owner, at)
    }
  }

  /** No task but the loop has a reference to the session before `init` has stored AwaitingInit. */
  predicate Enabled(k: Control, a: Action)
  {
    match a
    case Init => k.owner.OInit?
    case Spawn => k.owner.OSpawn?
    case CleanupStart => k.owner.OServe?
    case CleanupFinish => k.owner.OCleanup?
    case Receive(_) => k.read.RWait?
    case InitPacketCas => k.read.RInitCas?
    case HandlerStart => k.read.RBefore?
    case HandlerDone(_) => k.read.RRunning?
    case AwaitReadyCas => k.read.RAwaitReady?
    case SendInit(_) => k.read.RSendInit?
    case ReadyCas => k.read.RReadyCas?
    case NotifyWaiters => k.read.RNotify?
    case EndRead => k.read.RWait?
    case AbortRead => !k.read.RNone?
    case CloseGet => !k.owner.OInit?
    case _ => true
  }

  function Step(hasHandler: bool, k: Control, a: Action): Control
    requires Enabled(k, a)
  {
    match a
    case Init => Control(AwaitingInit, k.entered + [AwaitingInit], OSpawn, k.read)
    case Spawn => k.(owner := OServe, read := RWait)
    case CleanupStart => k.(state := Closing, owner := OCleanup)
    case CleanupFinish => k.(state := Closed, owner := ODone)
    case Receive(packet) => k.(read := Received(k.state, packet))
    case InitPacketCas => if k.state == AwaitingInit then k.ReadEnter(Initiating, RBefore) else k.(read := REnded)
    case HandlerStart => k.(read := if hasHandler then RRunning else RAwaitReady)
    case HandlerDone(ok) => k.(read := if ok then RAwaitReady else REnded)
    case AwaitReadyCas => if k.state == Initiating then k.ReadEnter(AwaitingReady, RSendInit) else k.(read := REnded)
    case SendInit(ok) => k.(read := if ok then RWait else REnded)
    case ReadyCas => if k.state == AwaitingReady then k.ReadEnter(Ready, RNotify) else k.(read := REnded)
    case NotifyWaiters => k.(read := RWait)
    case EndRead => k.(read := REnded)
    case AbortRead => k.(read := REnded)
    case CloseStore => k.(state := Closing)
    case _ => k
  }

  function Received(state: SessionState, packet: Packet): Read
  {
    match packet
    case InitPacket => if state == AwaitingInit then RInitCas else REnded
    case ReadyPacket => if state == AwaitingReady then RReadyCas else REnded
    case KeylessEvent => if state == Ready then REnded else RWait
    case CloseFrame => REnded
    case PingFrame => REnded  // one byte that no codec decodes to a packet
    case Undecodable => REnded
    case _ => RWait
  }

  predicate ControlInv(k: Control)
  {
    var n := |k.entered|;
    && 1 <= n <= 5
    && (Live(k.state) ==> k.state == LiveState(n))
    && (k.owner.OInit? ==> n == 1 && k.state == Created && k.read.RNone?)
    && (k.owner.OSpawn? ==> k.read.RNone?)
    && (k.owner.OCleanup? || k.owner.ODone? ==> !Live(k.state))
    && (!k.owner.OInit? ==> 2 <= n)
    && (k.read.RNone? <==> k.owner.OInit? || k.owner.OSpawn?)
    && (match k.read
        case RNone => n <= 2
        case RWait => n == 2 || n == 4 || n == 5
        case RInitCas => n == 2
        case RBefore => n == 3
        case RRunning => n == 3
        case RAwaitReady => n == 3
        case RSendInit => n == 4
        case RReadyCas => n == 4
        case RNotify => n == 5
        case REnded => true)
  }

  predicate HistoryInv(k: Control)
  {
    |k.entered| <= 5 && forall i :: 0 <= i < |k.entered| ==> k.entered[i] == HANDSHAKE[i]
  }

  lemma ControlStep(hasHandler: bool, k: Control, p: Pending, a: Action)
    requires ControlInv(k) && PendingInv(k, p) && Enabled(k, a) && PendingEnabled(p, a)
    ensures ControlInv(Step(hasHandler, k, a))
  {
  }

  lemma HistoryKept(hasHandler: bool, k: Control, p: Pending, a: Action)
    requires ControlInv(k) && PendingInv(k, p) && HistoryInv(k) && Enabled(k, a) && PendingEnabled(p, a)
    ensures HistoryInv(Step(hasHandler, k, a))
    ensures k.entered <= Step(hasHandler, k, a).entered
  {
    ControlStep(hasHandler, k, p, a);
  }

  /** As on the server: closers between read and store, closers that have yet to queue the close frame, and emitters
      that have seen Ready and have yet to queue their event. */
  datatype Pending = Pending(closing: nat, closeSends: nat, emitting: nat)

  predicate PendingEnabled(p: Pending, a: Action)
  {
    match a
    case CloseStore => 0 < p.closing
    case CloseSend(_) => 0 < p.closeSends
    case EmitSend(_, _) => 0 < p.emitting
    case _ => true
  }

  function PendingStep(k: Control, p: Pending, a: Action): Pending
    requires PendingEnabled(p, a)
  {
    match a
    case CloseGet => if Live(k.state) then p.(closing := p.closing + 1) else p
    case CloseStore => p.(closing := p.closing - 1, closeSends := p.closeSends + 1)
    case CloseSend(_) => p.(closeSends := p.closeSends - 1)
    case EmitEnsure => if k.state == Ready then p.(emitting := p.emitting + 1) else p
    case EmitSend(_, _) => p.(emitting := p.emitting - 1)
    case _ => p
  }

  predicate PendingInv(k: Control, p: Pending)
  {
    && (k.owner.OInit? ==> p.closing == 0)
    && (0 < p.emitting ==> |k.entered| == 5)
  }

  /** History: `queued` is the list of events that were queued on the session's channel. */
  datatype Traffic = Traffic(initSent: bool, initReceived: bool, readyReceived: bool, queued: seq<Message>)

  function TrafficStep(t: Traffic, a: Action): Traffic
  {
    match a
    case SendInit(ok) => t.(initSent := t.initSent || ok)
    case Receive(InitPacket) => t.(initReceived := true)
    case Receive(ReadyPacket) => t.(readyReceived := true)
    case EmitSend(m, ok) => if ok then t.(queued := t.queued + [m]) else t
    case _ => t
  }

  predicate TrafficInv(k: Control, t: Traffic)
  {
    var n := |k.entered|;
    && (t.initSent ==> 4 <= n && !k.read.RSendInit?)
    && (3 <= n || k.read.RInitCas? ==> t.initReceived)
    && (5 <= n || k.read.RReadyCas? ==> t.readyReceived)
    && (t.queued != [] ==> n == 5)
  }

  lemma TrafficKept(hasHandler: bool, k: Control, p: Pending, t: Traffic, a: Action)
    requires ControlInv(k) && PendingInv(k, p) && TrafficInv(k, t) && Enabled(k, a) && PendingEnabled(p, a)
    ensures TrafficInv(Step(hasHandler, k, a), TrafficStep(t, a))
  {
  }

  lemma PendingKept(hasHandler: bool, k: Control, p: Pending, a: Action)
    requires ControlInv(k) && PendingInv(k, p) && Enabled(k, a) && PendingEnabled(p, a)
    ensures PendingInv(Step(hasHandler, k, a), PendingStep(k, p, a))
  {
  }

  lemma EnteredByCount(k: Control)
    requires HistoryInv(k)
    ensures Ready in k.entered <==> |k.entered| == 5
    ensures 4 <= |k.entered| ==> AwaitingReady in k.entered
  {
    if 4 <= |k.entered| {
      assert k.entered[3] == HANDSHAKE[3];
    }
    if |k.entered| == 5 {
      assert k.entered[4] == HANDSHAKE[4];
    }
  }

  datatype Session = Session(control: Control, pending: Pending, traffic: Traffic) {
    predicate Can(a: Action)
    {
      Enabled(control, a) && PendingEnabled(pending, a)
    }

    function Do(hasHandler: bool, a: Action): Session
      requires Can(a)
    {
      Session(Step(hasHandler, control, a), PendingStep(control, pending, a), TrafficStep(traffic, a))
    }

    predicate Inv()
    {
      ControlInv(control) && HistoryInv(control) && PendingInv(control, pending) && TrafficInv(control, traffic)
    }

    predicate Ready()
    {
      control.state.Ready?
    }
  }

  const NEW_SESSION := Session(Control(Created, [Created], OInit, RNone), Pending(0, 0, 0), Traffic(false, false, false, []))

  lemma InvStep(hasHandler: bool, s: Session, a: Action)
    requires s.Inv() && s.Can(a)
    ensures s.Do(hasHandler, a).Inv()
  {
    ControlStep(hasHandler, s.control, s.pending, a);
    HistoryKept(hasHandler, s.control, s.pending, a);
    PendingKept(hasHandler, s.control, s.pending, a);
    TrafficKept(hasHandler, s.control, s.pending, s.traffic, a);
  }

  /** `actions` lead from `s` to `t`. */
  predicate Run(hasHandler: bool, s: Session, actions: seq<Action>, t: Session)
    decreases |actions|
  {
    if actions == [] then s == t
    else s.Can(actions[0]) && Run(hasHandler, s.Do(hasHandler, actions[0]), actions[1..], t)
  }

  /** Whatever tasks and peer do, the live states are entered in handshake order, each at most once, and the state
      is the last one entered or a closing one. */
  lemma {:induction false} LiveStatesInOrder(hasHandler: bool, s: Session, actions: seq<Action>, t: Session)
    requires s.Inv() && Run(hasHandler, s, actions, t)
    ensures t.Inv() && t.control.entered <= HANDSHAKE && t.control.entered != []
    ensures Live(t.control.state) ==> t.control.state == t.control.entered[|t.control.entered| - 1]
    decreases |actions|
  {
    if actions != [] {
      InvStep(hasHandler, s, actions[0]);
      LiveStatesInOrder(hasHandler, s.Do(hasHandler, actions[0]), actions[1..], t);
    }
  }

  /** Closing and Closed are never left for a live state, and no live state is entered any more. */
  lemma {:induction false} ClosingIsForGood(hasHandler: bool, s: Session, actions: seq<Action>, t: Session)
    requires s.Inv() && !Live(s.control.state) && Run(hasHandler, s, actions, t)
    ensures !Live(t.control.state) && t.control.entered == s.control.entered
    decreases |actions|
  {
    if actions != [] {
      InvStep(hasHandler, s, actions[0]);
      ClosingIsForGood(hasHandler, s.Do(hasHandler, actions[0]), actions[1..], t);
    }
  }
}
