/** One server connection under any interleaving of its tasks: the main task that runs `init` and `cleanup`,
    the read task that runs `handle_init_packet`, and any number of tasks that call `close`, `disconnect` or emit.
    Each action is one atomic access of the shared state (or the start or end of a user handler),
    and nothing is assumed about the packets that arrive. */
module ServerConnection {
  import opened Packets

  datatype ConnectionState = Created | AwaitingInit | Initiating | Activating | Ready | Closing | Closed

  predicate Live(state: ConnectionState)
  {
    !state.Closing? && !state.Closed?
  }

  /** The live states in handshake order. */
  const HANDSHAKE: seq<ConnectionState> := [LiveState(1), LiveState(2), LiveState(3), LiveState(4), LiveState(5)]

  /** The n-th live state. */
  function LiveState(n: nat): ConnectionState
    requires 1 <= n <= 5
  {
    if n == 1 then Created else if n == 2 then AwaitingInit else if n == 3 then Initiating
    else if n == 4 then Activating else Ready
  }

  datatype Handler = InitRequest | InitResponse | Middleware | OnConnect

  function Nth(i: nat): Handler
    requires i < 4
  {
    if i == 0 then InitRequest else if i == 1 then InitResponse else if i == 2 then Middleware else OnConnect
  }

  /** Which setup handlers the namespace has configured. */
  datatype Config = Config(initRequest: bool, initResponse: bool, middleware: bool, onConnect: bool) {
    predicate Has(h: Handler)
    {
      match h
      case InitRequest => initRequest
      case InitResponse => initResponse
      case Middleware => middleware
      case OnConnect => onConnect
    }

    /** The configured handlers among the first `n`, in setup order. */
    function Setup(n: nat): seq<Handler>
      requires n <= 4
    {
      if n == 0 then []
      else if Has(Nth(n - 1)) then Setup(n - 1) + [Nth(n - 1)]
      else Setup(n - 1)
    }
  }

  /** Where the main task stands. `MRemove(k)` has stored Closing and performed k of the three index removals. */
  datatype Main = MEnsure | MRequest | MRequesting | MCas | MSendInit | MServe | MFailed | MRemove(removed: nat) | MFinish | MDone

  /** Where the read task stands. `RInsert(k)` has made the connection Ready and performed k of the three insertions. */
  datatype Read =
    | RWait | RInitCas | RBefore(h: Handler) | RRunning(h: Handler) | RActivate | REnsure | RReady
    | RInsert(inserted: nat) | RSendReady | REnded

  datatype Action =
    | InitEnsure | InitRequestStart | InitRequestDone(ok: bool) | InitCas | SendInit(ok: bool)
    | Receive(packet: Packet) | InitPacketCas | HandlerStart | HandlerDone(ok: bool)
    | ActivateCas | EnsureActivating | ReadyCas | Insert | SendReady(ok: bool) | EndRead
    | CloseGet | CloseStore | CloseSend(queued: bool)
    | EmitEnsure | EmitSend(message: Message) | SendDisconnect
    | CleanupStart | Remove | CleanupFinish

  // ---- The control state: the shared atomic cell and the two tasks ----

  /** `entered` is history: the live states entered so far. */
  datatype Control = Control(state: ConnectionState, entered: seq<ConnectionState>, main: Main, read: Read) {
    /** A live state is entered by the read task. */
    function ReadEnter(next: ConnectionState, at: Read): Control
    {
      Control(next, entered + [next], main, at)
    }

    predicate CleaningUp()
    {
      main.MRemove? || main.MFinish? || main.MDone?
    }
  }

  predicate Enabled(k: Control, a: Action)
  {
    match a
    case InitEnsure => k.main.MEnsure?
    case InitRequestStart => k.main.MRequest?
    case InitRequestDone(_) => k.main.MRequesting?
    case InitCas => k.main.MCas?
    case SendInit(_) => k.main.MSendInit?
    case CleanupStart => k.main.MServe? || (k.main.MFailed? && k.read.REnded?)  // a failed init joins the read task
    case Remove => k.main.MRemove?
    case CleanupFinish => k.main.MFinish?
    case Receive(_) => k.read.RWait?
    case InitPacketCas => k.read.RInitCas?
    case HandlerStart => k.read.RBefore?
    case HandlerDone(_) => k.read.RRunning?
    case ActivateCas => k.read.RActivate?
    case EnsureActivating => k.read.REnsure?
    case ReadyCas => k.read.RReady?
    case Insert => k.read.RInsert?
    case SendReady(_) => k.read.RSendReady?
    case EndRead => !k.read.RInsert? && !k.read.REnded?  // aborted, or end of stream: only at an await
    case _ => true
  }

  function Step(cfg: Config, k: Control, a: Action): Control
    requires Enabled(k, a)
  {
    match a
    case InitEnsure => k.(main := if k.state == Created then MRequest else MFailed)
    case InitRequestStart => k.(main := if cfg.initRequest then MRequesting else MCas)
    case InitRequestDone(ok) => k.(main := if ok then MCas else MFailed)
    case InitCas =>
      if k.state == Created then Control(AwaitingInit, k.entered + [AwaitingInit], MSendInit, k.read)
      else k.(main := MFailed)
    case SendInit(ok) => k.(main := if ok then MServe else MFailed)
    case CleanupStart => k.(state := Closing, main := MRemove(0))
    case Remove => k.(main := if k.main.removed < 2 then MRemove(k.main.removed + 1) else MFinish)
    case CleanupFinish => k.(state := Closed, main := MDone)
    case Receive(packet) => k.(read := Received(k.state, packet))
    case InitPacketCas =>
      if k.state == AwaitingInit then k.ReadEnter(Initiating, RBefore(InitResponse)) else k.(read := REnded)
    case HandlerStart =>
      // an unconfigured handler is skipped; an unconfigured middleware also skips the check behind it
      k.(read := if cfg.Has(k.read.h) then RRunning(k.read.h)
                 else if k.read.h == Middleware then RBefore(OnConnect)
                 else After(k.read.h))
    case HandlerDone(ok) => k.(read := if ok then After(k.read.h) else REnded)
    case ActivateCas =>
      if k.state == Initiating then k.ReadEnter(Activating, RBefore(Middleware)) else k.(read := REnded)
    case EnsureActivating => k.(read := if k.state == Activating then RBefore(OnConnect) else REnded)
    case ReadyCas => if k.state == Activating then k.ReadEnter(Ready, RInsert(0)) else k.(read := REnded)
    case Insert => k.(read := if k.read.inserted < 2 then RInsert(k.read.inserted + 1) else RSendReady)
    case SendReady(ok) => k.(read := if ok then RWait else REnded)
    case EndRead => k.(read := REnded)
    case CloseStore => k.(state := Closing)
    case _ => k
  }

  function Received(state: ConnectionState, packet: Packet): Read
  {
    match packet
    case InitPacket => if state == AwaitingInit then RInitCas else REnded
    case KeylessEvent => if state == Ready then REnded else RWait
    case CloseFrame => REnded
    case Undecodable => REnded
    case _ => RWait
  }

  function After(h: Handler): Read
  {
    match h
    case InitRequest => RWait
    case InitResponse => RActivate
    case Middleware => REnsure
    case OnConnect => RReady
  }

  /** The state is that of the latest live state entered, or a closing one, and the tasks stand where it allows. */
  predicate ControlInv(k: Control)
  {
    var n := |k.entered|;
    && 1 <= n <= 5
    && (Live(k.state) ==> k.state == LiveState(n))
    && (k.main.MEnsure? || k.main.MRequest? || k.main.MRequesting? || k.main.MCas? ==> n == 1)
    && (k.main.MSendInit? || k.main.MServe? ==> 2 <= n)
    && (k.CleaningUp() ==> !Live(k.state))
    && (match k.read
        case RWait => n <= 2 || n == 5
        case RInitCas => n == 2
        case RBefore(h) => n == StageOf(h)
        case RRunning(h) => n == StageOf(h)
        case RActivate => n == 3
        case REnsure => n == 4
        case RReady => n == 4
        case RInsert(i) => n == 5 && i <= 2
        case RSendReady => n == 5
        case REnded => true)
  }

  /** How many live states have been entered when a handler of the read task runs (0 for the one it does not run). */
  function StageOf(h: Handler): nat
  {
    match h
    case InitRequest => 0
    case InitResponse => 3
    case Middleware => 4
    case OnConnect => 4
  }

  /** The live states have been entered in handshake order, each once. */
  predicate HistoryInv(k: Control)
  {
    |k.entered| <= 5 && forall i :: 0 <= i < |k.entered| ==> k.entered[i] == HANDSHAKE[i]
  }

  lemma HistoryKept(cfg: Config, k: Control, a: Action)
    requires ControlInv(k) && HistoryInv(k) && Enabled(k, a)
    ensures HistoryInv(Step(cfg, k, a))
    ensures k.entered <= Step(cfg, k, a).entered
  {
    ControlStep(cfg, k, a);
  }

  lemma ControlStep(cfg: Config, k: Control, a: Action)
    requires ControlInv(k) && Enabled(k, a)
    ensures ControlInv(Step(cfg, k, a))
  {
  }

  // ---- Setup handlers ----

  /** Setup handlers started, and returned Ok, so far. */
  datatype SetupLog = SetupLog(started: seq<Handler>, passed: seq<Handler>)

  function LogStep(cfg: Config, k: Control, l: SetupLog, a: Action): SetupLog
    requires Enabled(k, a)
  {
    match a
    case InitRequestStart => if cfg.initRequest then l.(started := l.started + [InitRequest]) else l
    case InitRequestDone(ok) => if ok then l.(passed := l.passed + [InitRequest]) else l
    case HandlerStart => if cfg.Has(k.read.h) then l.(started := l.started + [k.read.h]) else l
    case HandlerDone(ok) => if ok then l.(passed := l.passed + [k.read.h]) else l
    case _ => l
  }

  /** Setup handlers run in order, each started only after the previous one returned Ok. */
  predicate LogInv(cfg: Config, k: Control, l: SetupLog)
  {
    var n := |k.entered|;
    && Partial(cfg, l)
    && (n == 1 ==>
        match k.main
        case MEnsure => l == Upto(cfg, 0)
        case MRequest => l == Upto(cfg, 0)
        case MRequesting => l == SetupLog(cfg.Setup(1), []) && cfg.initRequest
        case MCas => l == Upto(cfg, 1)
        case _ => true)
    && (n == 2 ==> l == Upto(cfg, 1))
    && (n == 3 || n == 4 ==>
        match k.read
        case RBefore(h) => l == Upto(cfg, Index(h))
        case RRunning(h) => cfg.Has(h) && l == SetupLog(cfg.Setup(Index(h) + 1), cfg.Setup(Index(h)))
        case RActivate => l == Upto(cfg, 2)
        case REnsure => l == Upto(cfg, 3)
        case RReady => l == Upto(cfg, 4)
        case _ => true)
    && (n == 5 ==> l == Upto(cfg, 4))
  }

  /** The handlers configured among the first `n` have all returned Ok and no other has been started. */
  function Upto(cfg: Config, n: nat): SetupLog
    requires n <= 4
  {
    SetupLog(cfg.Setup(n), cfg.Setup(n))
  }

  /** Some number of stages has passed, and at most the next one has been started. */
  predicate Partial(cfg: Config, l: SetupLog)
  {
    exists n :: 0 <= n <= 4 && AtStage(cfg, l, n)
  }

  predicate AtStage(cfg: Config, l: SetupLog, n: nat)
    requires n <= 4
  {
    l.passed == cfg.Setup(n) && (l.started == cfg.Setup(n) || (n < 4 && l.started == cfg.Setup(n + 1)))
  }

  function Index(h: Handler): (i: nat)
    ensures i < 4 && Nth(i) == h
  {
    match h
    case InitRequest => 0
    case InitResponse => 1
    case Middleware => 2
    case OnConnect => 3
  }

  lemma LogKept(cfg: Config, k: Control, l: SetupLog, a: Action)
    requires ControlInv(k) && LogInv(cfg, k, l) && Enabled(k, a)
    ensures LogInv(cfg, Step(cfg, k, a), LogStep(cfg, k, l, a))
  {
    if a.InitRequestStart? || a.InitRequestDone? {
      RequestKept(cfg, k, l, a);
    } else if a.HandlerStart? {
      StartKept(cfg, k, l);
    } else if a.HandlerDone? {
      DoneKept(cfg, k, l, a.ok);
    } else {
      OthersKept(cfg, k, l, a);
    }
  }

  lemma RequestKept(cfg: Config, k: Control, l: SetupLog, a: Action)
    requires ControlInv(k) && LogInv(cfg, k, l) && Enabled(k, a) && (a.InitRequestStart? || a.InitRequestDone?)
    ensures LogInv(cfg, Step(cfg, k, a), LogStep(cfg, k, l, a))
  {
    var passed := if a.InitRequestDone? then a.ok else !cfg.initRequest;
    assert AtStage(cfg, LogStep(cfg, k, l, a), if passed then 1 else 0);
  }

  lemma StartKept(cfg: Config, k: Control, l: SetupLog)
    requires ControlInv(k) && LogInv(cfg, k, l) && Enabled(k, HandlerStart)
    ensures LogInv(cfg, Step(cfg, k, HandlerStart), LogStep(cfg, k, l, HandlerStart))
  {
    assert AtStage(cfg, LogStep(cfg, k, l, HandlerStart), Index(k.read.h));
  }

  lemma DoneKept(cfg: Config, k: Control, l: SetupLog, ok: bool)
    requires ControlInv(k) && LogInv(cfg, k, l) && Enabled(k, HandlerDone(ok))
    ensures LogInv(cfg, Step(cfg, k, HandlerDone(ok)), LogStep(cfg, k, l, HandlerDone(ok)))
  {
    assert AtStage(cfg, LogStep(cfg, k, l, HandlerDone(ok)), if ok then Index(k.read.h) + 1 else Index(k.read.h));
  }

  lemma OthersKept(cfg: Config, k: Control, l: SetupLog, a: Action)
    requires ControlInv(k) && LogInv(cfg, k, l) && Enabled(k, a)
    requires !a.InitRequestStart? && !a.InitRequestDone? && !a.HandlerStart? && !a.HandlerDone?
    ensures LogInv(cfg, Step(cfg, k, a), LogStep(cfg, k, l, a))
  {
    assert LogStep(cfg, k, l, a) == l;
  }

  // ---- The three indexes ----

  datatype Indexes = Indexes(connections: bool, runtimeIds: bool, namespaceIds: bool)

  function IndexStep(k: Control, x: Indexes, a: Action): Indexes
    requires Enabled(k, a)
  {
    match a
    case Insert =>
      if k.read.inserted == 0 then x.(connections := true)
      else if k.read.inserted == 1 then x.(runtimeIds := true)
      else x.(namespaceIds := true)
    case Remove =>
      if k.main.removed == 0 then x.(connections := false)
      else if k.main.removed == 1 then x.(runtimeIds := false)
      else x.(namespaceIds := false)
    case _ => x
  }

  /** Until cleanup begins, the three indexes say exactly how far the insertion has got. */
  predicate IndexInv(k: Control, x: Indexes)
  {
    !k.CleaningUp() ==>
      && (x.connections <==> |k.entered| == 5 && k.read != RInsert(0))
      && (x.runtimeIds <==> |k.entered| == 5 && k.read != RInsert(0) && k.read != RInsert(1))
      && (x.namespaceIds <==> |k.entered| == 5 && !k.read.RInsert?)
  }

  lemma IndexKept(cfg: Config, k: Control, x: Indexes, a: Action)
    requires ControlInv(k) && IndexInv(k, x) && Enabled(k, a)
    ensures IndexInv(Step(cfg, k, a), IndexStep(k, x, a))
  {
  }

  // ---- Tasks that close or emit, and packets ----

  /** `closing` counts the `close` calls between their read and their store, `closeSends` those that have stored and
      have yet to queue the close frame, `emitting` the emitters that have seen Ready and have yet to queue. */
  datatype Pending = Pending(closing: nat, closeSends: nat, emitting: nat)

  predicate PendingEnabled(p: Pending, a: Action)
  {
    match a
    case CloseStore => 0 < p.closing
    case CloseSend(_) => 0 < p.closeSends
    case EmitSend(_) => 0 < p.emitting
    case _ => true
  }

  function PendingStep(k: Control, p: Pending, a: Action): Pending
    requires PendingEnabled(p, a)
  {
    match a
    case CloseGet => if Live(k.state) then p.(closing := p.closing + 1) else p
    case CloseStore => p.(closing := p.closing - 1, closeSends := p.closeSends + 1)
    case CloseSend(_) => p.(closeSends := p.closeSends - 1)
    case EmitEnsure => if k.state == Ready then p.(emitting := p.emitting + 1) else p
    case EmitSend(_) => p.(emitting := p.emitting - 1)
    case _ => p
  }

  /** History: which protocol packets have been queued or received, which events have arrived and which of them
      were dispatched to the event handlers. */
  datatype Traffic = Traffic(initSent: bool, initReceived: bool, readySent: bool,
                             arrived: seq<Message>, dispatched: seq<Message>)

  function TrafficStep(k: Control, t: Traffic, a: Action): Traffic
  {
    match a
    case SendInit(ok) => t.(initSent := t.initSent || ok)
    case SendReady(ok) => t.(readySent := t.readySent || ok)
    case Receive(InitPacket) => t.(initReceived := true)
    case Receive(EventPacket(m)) =>
      if k.state == Ready then t.(arrived := t.arrived + [m], dispatched := t.dispatched + [m])
      else t.(arrived := t.arrived + [m])
    case _ => t
  }

  predicate TrafficInv(k: Control, t: Traffic)
  {
    var n := |k.entered|;
    && (t.initSent ==> 2 <= n && !k.main.MSendInit?)
    && (3 <= n || k.read.RInitCas? ==> t.initReceived)
    && (t.readySent ==> n == 5 && !k.read.RInsert? && !k.read.RSendReady?)
  }

  lemma TrafficKept(cfg: Config, k: Control, t: Traffic, a: Action)
    requires ControlInv(k) && TrafficInv(k, t) && Enabled(k, a)
    ensures TrafficInv(Step(cfg, k, a), TrafficStep(k, t, a))
  {
  }

  // ---- The whole connection ----

  datatype Connection = Connection(control: Control, log: SetupLog, index: Indexes, pending: Pending, traffic: Traffic) {
    predicate Can(a: Action)
    {
      Enabled(control, a) && PendingEnabled(pending, a)
    }

    function Do(cfg: Config, a: Action): Connection
      requires Can(a)
    {
      Connection(Step(cfg, control, a), LogStep(cfg, control, log, a), IndexStep(control, index, a),
                 PendingStep(control, pending, a), TrafficStep(control, traffic, a))
    }

    predicate Inv(cfg: Config)
    {
      && ControlInv(control) && HistoryInv(control) && LogInv(cfg, control, log)
      && IndexInv(control, index) && TrafficInv(control, traffic)
    }

    predicate Indexed()
    {
      index == Indexes(true, true, true)
    }
  }

  const NEW_CONNECTION := Connection(
    Control(Created, [Created], MEnsure, RWait), SetupLog([], []), Indexes(false, false, false),
    Pending(0, 0, 0), Traffic(false, false, false, [], []))

  lemma InvInit(cfg: Config)
    ensures NEW_CONNECTION.Inv(cfg)
  {
    assert AtStage(cfg, NEW_CONNECTION.log, 0);
  }

  lemma InvStep(cfg: Config, c: Connection, a: Action)
    requires c.Inv(cfg) && c.Can(a)
    ensures c.Do(cfg, a).Inv(cfg)
  {
    ControlStep(cfg, c.control, a);
    HistoryKept(cfg, c.control, a);
    LogKept(cfg, c.control, c.log, a);
    IndexKept(cfg, c.control, c.index, a);
    TrafficKept(cfg, c.control, c.traffic, a);
  }

  /** `actions` lead from `c` to `d`. */
  predicate Run(cfg: Config, c: Connection, actions: seq<Action>, d: Connection)
    decreases |actions|
  {
    if actions == [] then c == d
    else c.Can(actions[0]) && Run(cfg, c.Do(cfg, actions[0]), actions[1..], d)
  }

  lemma {:induction false} InvRun(cfg: Config, c: Connection, actions: seq<Action>, d: Connection)
    requires c.Inv(cfg) && Run(cfg, c, actions, d)
    ensures d.Inv(cfg)
    decreases |actions|
  {
    if actions != [] {
      InvStep(cfg, c, actions[0]);
      InvRun(cfg, c.Do(cfg, actions[0]), actions[1..], d);
    }
  }

  // ---- What holds of every connection ----

  /** Whatever tasks and peer do, the live states are entered in handshake order, each at most once, and the state
      is the last one entered or a closing one. */
  lemma LiveStatesInOrder(cfg: Config, actions: seq<Action>, c: Connection)
    requires Run(cfg, NEW_CONNECTION, actions, c)
    ensures c.control.entered <= HANDSHAKE && c.control.entered != []
    ensures Live(c.control.state) ==> c.control.state == c.control.entered[|c.control.entered| - 1]
  {
    InvInit(cfg);
    InvRun(cfg, NEW_CONNECTION, actions, c);
  }

  /** Closing and Closed are never left for a live state, and no live state is entered any more. */
  lemma {:induction false} ClosingIsForGood(cfg: Config, c: Connection, actions: seq<Action>, d: Connection)
    requires c.Inv(cfg) && !Live(c.control.state) && Run(cfg, c, actions, d)
    ensures !Live(d.control.state) && d.control.entered == c.control.entered
    decreases |actions|
  {
    if actions != [] {
      InvStep(cfg, c, actions[0]);
      ClosingIsForGood(cfg, c.Do(cfg, actions[0]), actions[1..], d);
    }
  }

  lemma {:induction false} SetupGrows(cfg: Config, m: nat, n: nat)
    requires m <= n <= 4
    ensures cfg.Setup(m) <= cfg.Setup(n)
    ensures |cfg.Setup(n)| <= |cfg.Setup(m)| + (n - m)
  {
    if m < n {
      SetupGrows(cfg, m, n - 1);
    }
  }

  /** Setup order: the handlers started are a prefix of the configured ones, at most one of them has not returned Ok,
      and a connection that ever became Ready has passed all of them. */
  lemma SetupInOrder(cfg: Config, actions: seq<Action>, c: Connection)
    requires Run(cfg, NEW_CONNECTION, actions, c)
    ensures c.log.passed <= c.log.started <= cfg.Setup(4)
    ensures |c.log.started| <= |c.log.passed| + 1
    ensures Ready in c.control.entered ==> c.log.passed == cfg.Setup(4)
  {
    InvInit(cfg);
    InvRun(cfg, NEW_CONNECTION, actions, c);
    PartialInOrder(cfg, c.log);
    ReadyPassed(cfg, c.control, c.log);
  }

  lemma PartialInOrder(cfg: Config, l: SetupLog)
    requires Partial(cfg, l)
    ensures l.passed <= l.started <= cfg.Setup(4) && |l.started| <= |l.passed| + 1
  {
    var n :| 0 <= n <= 4 && AtStage(cfg, l, n);
    SetupGrows(cfg, n, 4);
    if n < 4 {
      SetupGrows(cfg, n, n + 1);
      SetupGrows(cfg, n + 1, 4);
    }
  }

  lemma ReadyPassed(cfg: Config, k: Control, l: SetupLog)
    requires HistoryInv(k) && LogInv(cfg, k, l)
    ensures Ready in k.entered ==> l.passed == cfg.Setup(4)
  {
    ReadyIsFifth(k);
  }

  lemma ReadyIsFifth(k: Control)
    requires HistoryInv(k)
    ensures Ready in k.entered <==> |k.entered| == 5
  {
    if |k.entered| == 5 {
      assert k.entered[4] == HANDSHAKE[4];
    }
  }

  /** A connection that starts closing before it is Ready never becomes Ready and is never in an index. */
  lemma ClosedDuringSetup(cfg: Config, before: seq<Action>, c: Connection, after: seq<Action>, d: Connection)
    requires Run(cfg, NEW_CONNECTION, before, c) && Run(cfg, c, after, d)
    requires !Live(c.control.state) && Ready !in c.control.entered
    ensures Ready !in d.control.entered && d.index == Indexes(false, false, false)
  {
    InvInit(cfg);
    InvRun(cfg, NEW_CONNECTION, before, c);
    ClosingIsForGood(cfg, c, after, d);
    ReadyIsFifth(c.control);
    NeverReadyNeverIndexed(cfg, NEW_CONNECTION, before, c);
    NeverReadyNeverIndexed(cfg, c, after, d);
  }

  lemma {:induction false} NeverReadyNeverIndexed(cfg: Config, c: Connection, actions: seq<Action>, d: Connection)
    requires c.Inv(cfg) && Run(cfg, c, actions, d) && |d.control.entered| < 5
    requires c.index == Indexes(false, false, false)
    ensures d.index == Indexes(false, false, false) && |c.control.entered| <= |d.control.entered|
    decreases |actions|
  {
    if actions != [] {
      var e := c.Do(cfg, actions[0]);
      InvStep(cfg, c, actions[0]);
      EnteredGrows(cfg, e, actions[1..], d);
      NeverReadyNeverIndexed(cfg, e, actions[1..], d);
    }
  }

  lemma {:induction false} EnteredGrows(cfg: Config, c: Connection, actions: seq<Action>, d: Connection)
    requires c.Inv(cfg) && Run(cfg, c, actions, d)
    ensures c.control.entered <= d.control.entered
    decreases |actions|
  {
    if actions != [] {
      InvStep(cfg, c, actions[0]);
      HistoryKept(cfg, c.control, actions[0]);
      EnteredGrows(cfg, c.Do(cfg, actions[0]), actions[1..], d);
    }
  }

  // ---- Cleanup against a read task that is still running ----

  const NOT_INDEXED := Indexes(false, false, false)

  /** Some continuation leaves the connection in an index after its cleanup is over. */
  ghost predicate CanStayIndexed(cfg: Config, c: Connection)
  {
    exists actions, d :: Run(cfg, c, actions, d) && d.control.main.MDone? && d.index != NOT_INDEXED
  }

  /** After a successful `init`, cleanup does not wait for the read task it aborts. When cleanup has just stored Closing,
      the connection can stay indexed for good if and only if the read task is between its transition to Ready and its
      last insertion. */
  lemma StaysIndexedIffMidInsertion(cfg: Config, actions: seq<Action>, c: Connection)
    requires Run(cfg, NEW_CONNECTION, actions, c) && c.control.main == MRemove(0)
    ensures CanStayIndexed(cfg, c) <==> c.control.read.RInsert?
  {
    if c.control.read.RInsert? {
      LateInsertion(cfg, c);
    } else {
      InvInit(cfg);
      InvRun(cfg, NEW_CONNECTION, actions, c);
      forall more, d | Run(cfg, c, more, d) && d.control.main.MDone?
        ensures d.index == NOT_INDEXED
      {
        RemovedForGood(cfg, c, more, d);
      }
    }
  }

  lemma LateInsertion(cfg: Config, c: Connection)
    requires c.control.main == MRemove(0) && c.control.read.RInsert?
    ensures CanStayIndexed(cfg, c)
  {
    var done := ReachCleaned(cfg, c);
    var late := Reach(cfg, c, done, Insert);
    var actions :| Run(cfg, c, actions, late);
    assert late.index != NOT_INDEXED && late.control.main.MDone?;
  }

  /** The rest of cleanup, undisturbed. */
  lemma ReachCleaned(cfg: Config, c: Connection) returns (d: Connection)
    requires c.control.main == MRemove(0)
    ensures Reaches(cfg, c, d) && d.control.main.MDone? && d.control.read == c.control.read
  {
    RunNone(cfg, c);
    d := Reach(cfg, c, c, Remove);
    d := Reach(cfg, c, d, Remove);
    d := Reach(cfg, c, d, Remove);
    d := Reach(cfg, c, d, CleanupFinish);
  }

  /** Some run leads from `c` to `d`. */
  ghost predicate Reaches(cfg: Config, c: Connection, d: Connection)
  {
    exists actions :: Run(cfg, c, actions, d)
  }

  lemma RunNone(cfg: Config, c: Connection)
    ensures Reaches(cfg, c, c)
  {
    assert Run(cfg, c, [], c);
  }

  lemma Reach(cfg: Config, c: Connection, d: Connection, a: Action) returns (e: Connection)
    requires Reaches(cfg, c, d) && Enabled(d.control, a) && PendingEnabled(d.pending, a)
    ensures e.control == Step(cfg, d.control, a) && e.index == IndexStep(d.control, d.index, a)
    ensures Reaches(cfg, c, e)
  {
    e := d.Do(cfg, a);
    var actions :| Run(cfg, c, actions, d);
    RunAppend(cfg, c, actions, d, a);
  }

  lemma {:induction false} RunAppend(cfg: Config, c: Connection, actions: seq<Action>, d: Connection, a: Action)
    requires Run(cfg, c, actions, d) && d.Can(a)
    ensures Run(cfg, c, actions + [a], d.Do(cfg, a))
    decreases |actions|
  {
    if actions == [] {
      assert Run(cfg, d.Do(cfg, a), [], d.Do(cfg, a));
    } else {
      RunAppend(cfg, c.Do(cfg, actions[0]), actions[1..], d, a);
      assert (actions + [a])[1..] == actions[1..] + [a];
    }
  }

  /** This does happen: whatever handlers are configured, some run leads through a successful `init` to a cleanup that
      begins while the read task is inserting. */
  lemma CleanupCanMeetInsertion(cfg: Config) returns (c: Connection)
    ensures Reaches(cfg, NEW_CONNECTION, c) && c.control.main == MRemove(0) && c.control.read.RInsert?
  {
    c := ReachServing(cfg);
    c := ReachMiddleware(cfg, c);
    c := ReachInsertion(cfg, c);
    c := Reach(cfg, NEW_CONNECTION, c, CleanupStart);
  }

  lemma ReachServing(cfg: Config) returns (c: Connection)
    ensures Reaches(cfg, NEW_CONNECTION, c)
    ensures c.control == Control(AwaitingInit, [Created, AwaitingInit], MServe, RWait)
  {
    RunNone(cfg, NEW_CONNECTION);
    c := Reach(cfg, NEW_CONNECTION, NEW_CONNECTION, InitEnsure);
    c := Reach(cfg, NEW_CONNECTION, c, InitRequestStart);
    if cfg.initRequest {
      c := Reach(cfg, NEW_CONNECTION, c, InitRequestDone(true));
    }
    c := Reach(cfg, NEW_CONNECTION, c, InitCas);
    c := Reach(cfg, NEW_CONNECTION, c, SendInit(true));
  }

  lemma ReachMiddleware(cfg: Config, b: Connection) returns (c: Connection)
    requires Reaches(cfg, NEW_CONNECTION, b) && b.control.state.AwaitingInit? && b.control.main.MServe? && b.control.read.RWait?
    ensures Reaches(cfg, NEW_CONNECTION, c)
    ensures c.control.state.Activating? && c.control.main.MServe? && c.control.read == RBefore(Middleware)
  {
    c := Reach(cfg, NEW_CONNECTION, b, Receive(InitPacket));
    c := Reach(cfg, NEW_CONNECTION, c, InitPacketCas);
    c := Reach(cfg, NEW_CONNECTION, c, HandlerStart);
    if cfg.initResponse {
      c := Reach(cfg, NEW_CONNECTION, c, HandlerDone(true));
    }
    c := Reach(cfg, NEW_CONNECTION, c, ActivateCas);
  }

  lemma ReachInsertion(cfg: Config, b: Connection) returns (c: Connection)
    requires Reaches(cfg, NEW_CONNECTION, b) && b.control.state.Activating? && b.control.main.MServe?
    requires b.control.read == RBefore(Middleware)
    ensures Reaches(cfg, NEW_CONNECTION, c) && c.control.main.MServe? && c.control.read == RInsert(0)
  {
    c := Reach(cfg, NEW_CONNECTION, b, HandlerStart);
    if cfg.middleware {
      c := Reach(cfg, NEW_CONNECTION, c, HandlerDone(true));
      c := Reach(cfg, NEW_CONNECTION, c, EnsureActivating);
    }
    c := Reach(cfg, NEW_CONNECTION, c, HandlerStart);
    if cfg.onConnect {
      c := Reach(cfg, NEW_CONNECTION, c, HandlerDone(true));
    }
    c := Reach(cfg, NEW_CONNECTION, c, ReadyCas);
  }

  /** Cleanup has performed the removals its position says, and the read task inserts nothing any more. */
  predicate Removing(c: Connection)
  {
    && c.control.CleaningUp() && !c.control.read.RInsert?
    && (!c.control.main.MRemove? || 0 < c.control.main.removed ==> !c.index.connections)
    && (!c.control.main.MRemove? || 1 < c.control.main.removed ==> !c.index.runtimeIds)
    && (!c.control.main.MRemove? ==> !c.index.namespaceIds)
  }

  lemma RemovingStep(cfg: Config, c: Connection, a: Action)
    requires ControlInv(c.control) && Removing(c) && c.Can(a)
    ensures Removing(c.Do(cfg, a))
  {
  }

  lemma {:induction false} RemovedForGood(cfg: Config, c: Connection, actions: seq<Action>, d: Connection)
    requires c.Inv(cfg) && Removing(c) && Run(cfg, c, actions, d)
    ensures Removing(d)
    decreases |actions|
  {
    if actions != [] {
      InvStep(cfg, c, actions[0]);
      RemovingStep(cfg, c, actions[0]);
      RemovedForGood(cfg, c.Do(cfg, actions[0]), actions[1..], d);
    }
  }
}
