/** The client runtime: `connect`, `disconnect` and `emit`, the connection loop and the event forwarder, over the
    sequence of sessions the loop has run, each together with the server connection it reached. */
module EventPipeline {
  import opened Options
  import opened Packets
  import H = Handshake
  import C = ClientSession

  datatype Status = Running | Stopped | Stopping

  /** Who holds `operate_lock`, and where: nobody, a `connect` or a `disconnect`. */
  datatype Operation = Idle | CSpawnLoop | CSpawnForwarder | DAbort | DLockRx | DDrain | DJoin

  /** The connection loop; the number is the session it works on. */
  datatype Loop =
    | LNone | LCheck | LConnect | LInit(i: nat) | LPublish(i: nat) | LServe(i: nat) | LStop(i: nat)
    | LUnpublish(i: nat) | LCleanup(i: nat) | LFinish(i: nat) | LAfter | LDelay | LDone

  /** The forwarder; `m` is the message it holds, `second` says that it tries for the second time,
      after it has created its `Notified`. */
  datatype Forwarder =
    | FNone | FLockRx | FReceive
    | FLoad(m: Message, second: bool)
    | FEnsure(m: Message, i: nat, second: bool)
    | FSend(m: Message, i: nat, second: bool)
    | FSubscribe(m: Message)
    | FParked(m: Message)

  /** `woken`: some `notify_waiters` came after the forwarder last created its `Notified`. `abandoned` is history:
      the caller of a `disconnect` has dropped it after it stored Stopping. */
  datatype Epoch = Epoch(status: Status, op: Operation, loop: Loop, fwd: Forwarder, aborted: bool, woken: bool,
                         current: Option<nat>, abandoned: bool)

  /** `channel` and `emitting` (emits that have seen Running and have yet to send) are state, the rest is history:
      `accepted` is everything the emit channel ever accepted, `settled` what earlier connect epochs disposed of,
      `dropped` what this epoch's disconnect has dropped, and `first` the number of this epoch's first session. */
  datatype Books = Books(channel: seq<Message>, emitting: nat, accepted: seq<Message>, settled: seq<Message>,
                         dropped: seq<Message>, first: nat)

  datatype State = State(epoch: Epoch, books: Books, sessions: seq<H.Pair>)

  const NEW_STATE := State(Epoch(Stopped, Idle, LNone, FNone, false, false, None, false), Books([], 0, [], [], [], 0), [])

  datatype Config = Config(session: H.Config, capacity: Capacity)

  datatype Step =
    | EmitEnsure | EmitSend(m: Message)
    | ConnectBegin | SpawnLoop | SpawnForwarder
    | DisconnectBegin | AbortForwarder | LockRx | Drain | Drained | JoinLoop | DropDisconnect
    | FwdLockRx | FwdReceive | FwdLoad | FwdEnsure | FwdSend | FwdSubscribe | FwdWake | FwdDrop
    | LoopCheck | LoopConnect(ok: bool) | LoopInit | LoopPublish | LoopAbortRead | LoopCloseWriter
    | LoopUnpublish | LoopCleanup | LoopFinish | LoopAfter | LoopDelayed
    | Session(i: nat, s: H.Step)

  /** What the message in the forwarder's hands is, if any. */
  function Held(f: Forwarder): seq<Message>
  {
    match f
    case FNone => []
    case FLockRx => []
    case FReceive => []
    case _ => [f.m]
  }

  /** The steps of a session that neither the loop nor the forwarder drives. */
  predicate Free(s: H.Step)
  {
    s.Client? ==>
      match s.c
      case Init => false
      case Spawn => false
      case CleanupStart => false
      case CleanupFinish => false
      case AbortRead => false
      case EmitEnsure => false
      case EmitSend(_, _) => false
      case _ => true
  }

  /** The session a step acts on, and how. */
  function Act(e: Epoch, sessions: seq<H.Pair>, step: Step): Option<(nat, H.Step)>
  {
    match step
    case FwdEnsure => if e.fwd.FEnsure? then Some((e.fwd.i, H.Client(C.EmitEnsure))) else None
    case FwdSend =>
      if e.fwd.FSend? && e.fwd.i < |sessions|
      then Some((e.fwd.i, H.Client(C.EmitSend(e.fwd.m, sessions[e.fwd.i].up.open))))
      else None
    case LoopInit => if e.loop.LInit? then Some((e.loop.i, H.Client(C.Init))) else None
    case LoopPublish => if e.loop.LPublish? then Some((e.loop.i, H.Client(C.Spawn))) else None
    case LoopAbortRead => if e.loop.LServe? then Some((e.loop.i, H.Client(C.AbortRead))) else None
    case LoopCloseWriter => if e.loop.LStop? then Some((e.loop.i, H.CloseUp)) else None
    case LoopCleanup => if e.loop.LCleanup? then Some((e.loop.i, H.Client(C.CleanupStart))) else None
    case LoopFinish => if e.loop.LFinish? then Some((e.loop.i, H.Client(C.CleanupFinish))) else None
    case Session(i, s) => Some((i, s))
    case _ => None
  }

  /** The wait of `run_connection` is over: the read task or the write task has ended, or the session was closed. */
  predicate Over(p: H.Pair)
  {
    p.client.control.read.REnded? || !p.up.open || !C.Live(p.client.control.state)
  }

  predicate Disconnecting(op: Operation)
  {
    op.DAbort? || op.DLockRx? || op.DDrain? || op.DJoin?
  }

  predicate EpochEnabled(e: Epoch, sessions: seq<H.Pair>, step: Step)
  {
    match step
    case ConnectBegin => e.op.Idle?
    case SpawnLoop => e.op.CSpawnLoop?
    case SpawnForwarder => e.op.CSpawnForwarder?
    case DisconnectBegin => e.op.Idle?
    case AbortForwarder => e.op.DAbort?
    case LockRx => e.op.DLockRx? && (e.fwd.FNone? || e.fwd.FLockRx?)
    case Drain => e.op.DDrain?
    case Drained => e.op.DDrain?
    case JoinLoop => e.op.DJoin? && (e.loop.LDone? || e.loop.LNone?)
    case DropDisconnect => Disconnecting(e.op)
    case FwdLockRx => e.fwd.FLockRx? && !e.op.DDrain? && !e.op.DJoin?
    case FwdReceive => e.fwd.FReceive?
    case FwdLoad => e.fwd.FLoad?
    case FwdEnsure => e.fwd.FEnsure?
    case FwdSend => e.fwd.FSend?
    case FwdSubscribe => e.fwd.FSubscribe?
    case FwdWake => e.fwd.FParked? && e.woken
    case FwdDrop => e.aborted && !e.fwd.FNone?
    case LoopCheck => e.loop.LCheck?
    case LoopConnect(_) => e.loop.LConnect?
    case LoopInit => e.loop.LInit?
    case LoopPublish => e.loop.LPublish?
    case LoopAbortRead => e.loop.LServe? && e.loop.i < |sessions| && Over(sessions[e.loop.i])
    case LoopCloseWriter => e.loop.LStop?
    case LoopUnpublish => e.loop.LUnpublish?
    case LoopCleanup => e.loop.LCleanup?
    case LoopFinish => e.loop.LFinish?
    case LoopAfter => e.loop.LAfter?
    case LoopDelayed => e.loop.LDelay?
    case Session(_, s) => Free(s)
    case _ => true
  }

  predicate BooksEnabled(capacity: nat, b: Books, step: Step)
  {
    match step
    case EmitSend(_) => 0 < b.emitting && |b.channel| < capacity
    case FwdReceive => b.channel != []
    case Drain => b.channel != []
    case Drained => b.channel == []
    case _ => true
  }

  predicate Can(cfg: Config, st: State, step: Step)
  {
    && EpochEnabled(st.epoch, st.sessions, step)
    && BooksEnabled(cfg.capacity, st.books, step)
    && (var act := Act(st.epoch, st.sessions, step);
        act.Some? ==> act.value.0 < |st.sessions| && H.Can(cfg.session, st.sessions[act.value.0], act.value.1))
  }

  /** After a failed attempt the forwarder creates its `Notified` and tries again, and after the second it parks. */
  function Retry(m: Message, second: bool): Forwarder
  {
    if second then FParked(m) else FSubscribe(m)
  }

  function EpochStep(e: Epoch, channel: seq<Message>, sessions: seq<H.Pair>, step: Step): Epoch
    requires EpochEnabled(e, sessions, step)
    requires step.FwdReceive? ==> channel != []
  {
    match step
    case ConnectBegin => if e.status == Stopped then e.(status := Running, op := CSpawnLoop) else e
    case SpawnLoop => e.(loop := LCheck, op := CSpawnForwarder)
    case SpawnForwarder => e.(fwd := FLockRx, aborted := false, op := Idle)
    case DisconnectBegin => if e.status == Running then e.(status := Stopping, op := DAbort) else e
    // an aborted task that is still waiting for the receiver's lock takes no further step
    case AbortForwarder => e.(aborted := true, fwd := if e.fwd.FLockRx? then FNone else e.fwd, op := DLockRx)
    case LockRx => e.(op := DDrain)
    case Drained => e.(op := DJoin)
    case JoinLoop => e.(loop := LNone, status := Stopped, op := Idle)
    // the locks are released, the status stays Stopping
    case DropDisconnect => e.(op := Idle, abandoned := true)
    case FwdLockRx => e.(fwd := FReceive)
    case FwdReceive => e.(fwd := FLoad(channel[0], false))
    case FwdLoad =>
      e.(fwd := if e.current.Some? then FEnsure(e.fwd.m, e.current.value, e.fwd.second) else Retry(e.fwd.m, e.fwd.second))
    case FwdEnsure =>
      e.(fwd := if e.fwd.i < |sessions| && sessions[e.fwd.i].client.Ready() then FSend(e.fwd.m, e.fwd.i, e.fwd.second)
                else Retry(e.fwd.m, e.fwd.second))
    case FwdSend =>
      e.(fwd := if e.fwd.i < |sessions| && sessions[e.fwd.i].up.open then FReceive else Retry(e.fwd.m, e.fwd.second))
    case FwdSubscribe => e.(fwd := FLoad(e.fwd.m, true), woken := false)
    case FwdWake => e.(fwd := FLoad(e.fwd.m, false))
    case FwdDrop => e.(fwd := FNone)
    case LoopCheck => e.(loop := if e.status == Running then LConnect else LDone)
    case LoopConnect(ok) => e.(loop := if ok then LInit(|sessions|) else LAfter)
    case LoopInit => e.(loop := LPublish(e.loop.i))
    case LoopPublish => e.(loop := LServe(e.loop.i), current := Some(e.loop.i))
    case LoopAbortRead => e.(loop := LStop(e.loop.i))
    case LoopCloseWriter => e.(loop := LUnpublish(e.loop.i))
    case LoopUnpublish => e.(loop := LCleanup(e.loop.i), current := None)
    case LoopCleanup => e.(loop := LFinish(e.loop.i))
    case LoopFinish => e.(loop := LAfter)
    case LoopAfter => e.(loop := if e.status == Running then LDelay else LCheck)
    case LoopDelayed => e.(loop := LCheck)
    case Session(_, s) => if s == H.Client(C.NotifyWaiters) then e.(woken := true) else e
    case _ => e
  }

  /** `queued` is what is queued on this epoch's sessions and `n` the number of all sessions. */
  function BooksStep(e: Epoch, b: Books, queued: seq<Message>, n: nat, step: Step): Books
    requires step.EmitSend? ==> 0 < b.emitting
    requires step.FwdReceive? || step.Drain? ==> b.channel != []
  {
    match step
    case EmitEnsure => if e.status == Running then b.(emitting := b.emitting + 1) else b
    case EmitSend(m) => b.(channel := b.channel + [m], emitting := b.emitting - 1, accepted := b.accepted + [m])
    case ConnectBegin =>
      if e.status == Stopped then b.(settled := b.settled + queued + b.dropped, dropped := [], first := n) else b
    case Drain => b.(channel := b.channel[1..], dropped := b.dropped + [b.channel[0]])
    case FwdReceive => b.(channel := b.channel[1..])
    case FwdDrop => b.(dropped := b.dropped + Held(e.fwd))
    case _ => b
  }

  function SessionsStep(cfg: H.Config, e: Epoch, sessions: seq<H.Pair>, step: Step): seq<H.Pair>
    requires var act := Act(e, sessions, step);
             act.Some? ==> act.value.0 < |sessions| && H.Can(cfg, sessions[act.value.0], act.value.1)
  {
    var act := Act(e, sessions, step);
    if act.Some? then sessions[act.value.0 := H.Do(cfg, sessions[act.value.0], act.value.1)]
    else if step == LoopConnect(true) then sessions + [H.NEW_PAIR]
    else sessions
  }

  /** The events queued on these sessions, session after session. */
  function Queued(sessions: seq<H.Pair>): seq<Message>
  {
    if sessions == [] then []
    else Queued(sessions[..|sessions| - 1]) + sessions[|sessions| - 1].client.traffic.queued
  }

  /** The events queued on this epoch's sessions. */
  function ThisEpoch(st: State): seq<Message>
  {
    if st.books.first <= |st.sessions| then Queued(st.sessions[st.books.first..]) else []
  }

  function Do(cfg: Config, st: State, step: Step): State
    requires Can(cfg, st, step)
  {
    State(EpochStep(st.epoch, st.books.channel, st.sessions, step),
          BooksStep(st.epoch, st.books, ThisEpoch(st), |st.sessions|, step),
          SessionsStep(cfg.session, st.epoch, st.sessions, step))
  }

  // ---- Epochs ----

  /** The session the loop works on. */
  function LoopSession(l: Loop): Option<nat>
  {
    match l
    case LInit(i) => Some(i)
    case LPublish(i) => Some(i)
    case LServe(i) => Some(i)
    case LStop(i) => Some(i)
    case LUnpublish(i) => Some(i)
    case LCleanup(i) => Some(i)
    case LFinish(i) => Some(i)
    case _ => None
  }

  /** The session the forwarder has loaded. */
  function Loaded(f: Forwarder): Option<nat>
  {
    match f
    case FEnsure(_, i, _) => Some(i)
    case FSend(_, i, _) => Some(i)
    case _ => None
  }

  /** The lock holder, the status and the two tasks agree. */
  predicate OperationInv(e: Epoch)
  {
    && (match e.op
        case Idle => e.status == Stopping <==> e.abandoned
        case CSpawnLoop => e.status == Running && e.loop.LNone? && e.fwd.FNone?
        case CSpawnForwarder => e.status == Running && e.fwd.FNone?
        case DAbort => e.status == Stopping
        case DLockRx => e.status == Stopping && (e.fwd.FNone? || (e.aborted && !e.fwd.FLockRx?))
        case DDrain => e.status == Stopping && e.fwd.FNone?
        case DJoin => e.status == Stopping && e.fwd.FNone?)
    && (e.abandoned ==> e.op.Idle?)
    && (e.status == Stopped ==> e.loop.LNone? && e.fwd.FNone?)
    && (e.aborted && !e.fwd.FNone? ==> e.op.DLockRx? || e.abandoned)
  }

  /** The loop works on the latest session, which is the current one exactly while it is published. */
  predicate LoopInv(e: Epoch, first: nat, n: nat)
  {
    && first <= n
    && (e.current == if e.loop.LServe? || e.loop.LStop? || e.loop.LUnpublish? then LoopSession(e.loop) else None)
    && (LoopSession(e.loop).Some? ==> LoopSession(e.loop).value + 1 == n && first <= LoopSession(e.loop).value)
  }

  predicate LoadedInv(e: Epoch, first: nat, n: nat)
  {
    Loaded(e.fwd).Some? ==> first <= Loaded(e.fwd).value < n
  }

  predicate EpochInv(e: Epoch, first: nat, n: nat)
  {
    OperationInv(e) && LoopInv(e, first, n) && LoadedInv(e, first, n)
  }

  lemma OperationKept(e: Epoch, channel: seq<Message>, sessions: seq<H.Pair>, step: Step)
    requires OperationInv(e) && EpochEnabled(e, sessions, step) && (step.FwdReceive? ==> channel != [])
    ensures OperationInv(EpochStep(e, channel, sessions, step))
  {
    if !MovesOperation(step) {
      OperationStays(e, channel, sessions, step);
    }
  }

  predicate MovesOperation(step: Step)
  {
    match step
    case ConnectBegin => true
    case SpawnLoop => true
    case SpawnForwarder => true
    case DisconnectBegin => true
    case AbortForwarder => true
    case LockRx => true
    case Drained => true
    case JoinLoop => true
    case DropDisconnect => true
    case _ => false
  }

  lemma OperationStays(e: Epoch, channel: seq<Message>, sessions: seq<H.Pair>, step: Step)
    requires EpochEnabled(e, sessions, step) && (step.FwdReceive? ==> channel != []) && !MovesOperation(step)
    ensures var e' := EpochStep(e, channel, sessions, step);
            && e'.op == e.op && e'.status == e.status && e'.abandoned == e.abandoned && e'.aborted == e.aborted
            && (e.loop.LNone? ==> e'.loop.LNone?) && (e.fwd.FNone? ==> e'.fwd.FNone?)
            && (e'.fwd.FLockRx? ==> e.fwd.FLockRx?)
  {
  }

  /** The number of sessions after a step. */
  function Grown(n: nat, step: Step): nat
  {
    if step == LoopConnect(true) then n + 1 else n
  }

  /** Only a `connect` that finds the client Stopped begins an epoch. */
  function FirstAfter(e: Epoch, first: nat, n: nat, step: Step): nat
  {
    if step.ConnectBegin? && e.status == Stopped then n else first
  }

  lemma LoopKept(e: Epoch, channel: seq<Message>, first: nat, sessions: seq<H.Pair>, step: Step)
    requires EpochInv(e, first, |sessions|) && EpochEnabled(e, sessions, step) && (step.FwdReceive? ==> channel != [])
    ensures LoopInv(EpochStep(e, channel, sessions, step), FirstAfter(e, first, |sessions|, step), Grown(|sessions|, step))
  {
    if MovesLoop(step) {
      LoopMoves(e, channel, first, sessions, step);
    } else {
      LoopStays(e, channel, sessions, step);
    }
  }

  predicate MovesLoop(step: Step)
  {
    match step
    case SpawnLoop => true
    case JoinLoop => true
    case LoopCheck => true
    case LoopConnect(_) => true
    case LoopInit => true
    case LoopPublish => true
    case LoopAbortRead => true
    case LoopCloseWriter => true
    case LoopUnpublish => true
    case LoopCleanup => true
    case LoopFinish => true
    case LoopAfter => true
    case LoopDelayed => true
    case _ => false
  }

  lemma LoopMoves(e: Epoch, channel: seq<Message>, first: nat, sessions: seq<H.Pair>, step: Step)
    requires OperationInv(e) && LoopInv(e, first, |sessions|) && EpochEnabled(e, sessions, step) && MovesLoop(step)
    ensures LoopInv(EpochStep(e, channel, sessions, step), first, Grown(|sessions|, step))
  {
  }

  lemma LoopStays(e: Epoch, channel: seq<Message>, sessions: seq<H.Pair>, step: Step)
    requires EpochEnabled(e, sessions, step) && (step.FwdReceive? ==> channel != []) && !MovesLoop(step)
    ensures var e' := EpochStep(e, channel, sessions, step);
            e'.loop == e.loop && e'.current == e.current && Grown(|sessions|, step) == |sessions|
  {
  }

  lemma LoadedKept(e: Epoch, channel: seq<Message>, first: nat, sessions: seq<H.Pair>, step: Step)
    requires EpochInv(e, first, |sessions|) && EpochEnabled(e, sessions, step) && (step.FwdReceive? ==> channel != [])
    ensures LoadedInv(EpochStep(e, channel, sessions, step), FirstAfter(e, first, |sessions|, step), Grown(|sessions|, step))
  {
    LoadedFollows(e, channel, sessions, step);
  }

  /** What the forwarder has loaded it keeps, until it loads the current session. */
  lemma LoadedFollows(e: Epoch, channel: seq<Message>, sessions: seq<H.Pair>, step: Step)
    requires EpochEnabled(e, sessions, step) && (step.FwdReceive? ==> channel != [])
    ensures var e' := EpochStep(e, channel, sessions, step);
            Loaded(e'.fwd).Some? ==> Loaded(e'.fwd) == if step.FwdLoad? then e.current else Loaded(e.fwd)
  {
  }

  // ---- What the loop has done with each session ----

  /** Every session but the one the loop works on has been cleaned up. */
  predicate OwnersInv(l: Loop, sessions: seq<H.Pair>)
  {
    forall j :: 0 <= j < |sessions| ==> sessions[j].client.control.owner == Owner(l, j)
  }

  function Owner(l: Loop, j: nat): C.Owner
  {
    if LoopSession(l) != Some(j) then C.ODone
    else match l
      case LInit(_) => C.OInit
      case LPublish(_) => C.OSpawn
      case LFinish(_) => C.OCleanup
      case _ => C.OServe
  }

  predicate PairsInv(cfg: H.Config, sessions: seq<H.Pair>)
  {
    forall j :: 0 <= j < |sessions| ==> H.Inv(cfg, sessions[j])
  }

  lemma PairsKept(cfg: H.Config, e: Epoch, sessions: seq<H.Pair>, step: Step)
    requires PairsInv(cfg, sessions)
    requires var act := Act(e, sessions, step);
             act.Some? ==> act.value.0 < |sessions| && H.Can(cfg, sessions[act.value.0], act.value.1)
    ensures PairsInv(cfg, SessionsStep(cfg, e, sessions, step))
  {
    var act := Act(e, sessions, step);
    if act.Some? {
      H.InvStep(cfg, sessions[act.value.0], act.value.1);
    } else {
      H.InvInit(cfg);
    }
  }

  /** A session that is free to act keeps its owner, its queued events and its pending emits. */
  lemma FreeStep(cfg: H.Config, p: H.Pair, s: H.Step)
    requires H.Can(cfg, p, s) && Free(s)
    ensures H.Do(cfg, p, s).client.control.owner == p.client.control.owner
    ensures H.Do(cfg, p, s).client.traffic.queued == p.client.traffic.queued
    ensures H.Do(cfg, p, s).client.pending.emitting == p.client.pending.emitting
  {
  }

  lemma OwnersKept(cfg: H.Config, e: Epoch, channel: seq<Message>, sessions: seq<H.Pair>, step: Step)
    requires OwnersInv(e.loop, sessions) && EpochEnabled(e, sessions, step) && (step.FwdReceive? ==> channel != [])
    requires var act := Act(e, sessions, step);
             act.Some? ==> act.value.0 < |sessions| && H.Can(cfg, sessions[act.value.0], act.value.1)
    requires LoopSession(e.loop).Some? ==> LoopSession(e.loop).value + 1 == |sessions|
    requires e.op.CSpawnLoop? ==> e.loop.LNone?
    ensures OwnersInv(EpochStep(e, channel, sessions, step).loop, SessionsStep(cfg, e, sessions, step))
  {
    var act := Act(e, sessions, step);
    if act.Some? {
      DrivenStep(cfg, sessions[act.value.0], act.value.1);
      if step.Session? {
        FreeStep(cfg, sessions[step.i], step.s);
      }
    }
    forall j | 0 <= j < Grown(|sessions|, step)
      ensures SessionsStep(cfg, e, sessions, step)[j].client.control.owner == Owner(EpochStep(e, channel, sessions, step).loop, j)
    {
      OwnerFollows(e, channel, sessions, step, j);
    }
  }

  /** The loop moves on from a session exactly as it drives it. */
  lemma OwnerFollows(e: Epoch, channel: seq<Message>, sessions: seq<H.Pair>, step: Step, j: nat)
    requires EpochEnabled(e, sessions, step) && (step.FwdReceive? ==> channel != [])
    requires LoopSession(e.loop).Some? ==> LoopSession(e.loop).value + 1 == |sessions|
    requires e.op.CSpawnLoop? ==> e.loop.LNone?
    ensures var act := Act(e, sessions, step);
            var owner' := Owner(EpochStep(e, channel, sessions, step).loop, j);
            if j == |sessions| then step == LoopConnect(true) ==> owner' == C.OInit
            else owner' == if act.Some? && act.value.0 == j && act.value.1.Client? && !step.Session?
                           then DrivenOwner(Owner(e.loop, j), act.value.1.c)
                           else Owner(e.loop, j)
  {
    if step.Session? {
      assert EpochStep(e, channel, sessions, step).loop == e.loop;
    }
  }

  function DrivenOwner(owner: C.Owner, a: C.Action): C.Owner
  {
    match a
    case Init => C.OSpawn
    case Spawn => C.OServe
    case CleanupStart => C.OCleanup
    case CleanupFinish => C.ODone
    case _ => owner
  }

  /** What a step driven by the loop or the forwarder does to a session. */
  lemma DrivenStep(cfg: H.Config, p: H.Pair, s: H.Step)
    requires H.Can(cfg, p, s)
    ensures s.Client? ==> H.Do(cfg, p, s).client.control.owner == DrivenOwner(p.client.control.owner, s.c)
    ensures !s.Client? ==> H.Do(cfg, p, s).client == p.client
    ensures !(s.Client? && s.c.EmitSend? && s.c.ok) ==> H.Do(cfg, p, s).client.traffic.queued == p.client.traffic.queued
    ensures s.Client? && s.c.EmitSend? && s.c.ok ==>
              H.Do(cfg, p, s).client.traffic.queued == p.client.traffic.queued + [s.c.message]
  {
  }

  // ---- Where every message is ----

  lemma {:induction false} QueuedSame(a: seq<H.Pair>, b: seq<H.Pair>)
    requires |a| == |b| && forall j :: 0 <= j < |a| ==> a[j].client.traffic.queued == b[j].client.traffic.queued
    ensures Queued(a) == Queued(b)
  {
    if a != [] {
      QueuedSame(a[..|a| - 1], b[..|b| - 1]);
    }
  }

  lemma {:induction false} QueuedNothing(a: seq<H.Pair>)
    requires forall j :: 0 <= j < |a| ==> a[j].client.traffic.queued == []
    ensures Queued(a) == []
  {
    if a != [] {
      QueuedNothing(a[..|a| - 1]);
    }
  }

  lemma {:induction false} QueuedConcat(a: seq<H.Pair>, b: seq<H.Pair>)
    ensures Queued(a + b) == Queued(a) + Queued(b)
  {
    if b == [] {
      assert a + b == a;
    } else {
      var n := |b| - 1;
      QueuedConcat(a, b[..n]);
      assert (a + b)[..|a + b| - 1] == a + b[..n];
    }
  }

  /** A message queued on a session that has nothing queued behind it comes last. */
  lemma {:induction false} QueuedAdd(a: seq<H.Pair>, i: nat, b: seq<H.Pair>, m: Message)
    requires i < |a| == |b|
    requires forall j :: 0 <= j < |a| && j != i ==> a[j].client.traffic.queued == b[j].client.traffic.queued
    requires forall j :: i < j < |a| ==> a[j].client.traffic.queued == []
    requires b[i].client.traffic.queued == a[i].client.traffic.queued + [m]
    ensures Queued(b) == Queued(a) + [m]
  {
    var n := |a| - 1;
    if i < n {
      QueuedAdd(a[..n], i, b[..n], m);
    } else {
      QueuedSame(a[..n], b[..n]);
    }
  }

  /** Everything ever accepted is settled, queued on this epoch's sessions, dropped by this epoch's disconnect,
      in the forwarder's hands or in the channel, in that order. */
  predicate BooksInv(e: Epoch, b: Books, queued: seq<Message>)
  {
    && b.accepted == b.settled + queued + b.dropped + Held(e.fwd) + b.channel
    && (b.dropped != [] ==> e.fwd.FNone? && !e.op.CSpawnLoop? && !e.op.CSpawnForwarder?)
  }

  /** The sessions after the one the forwarder has loaded have nothing queued. */
  predicate TailInv(f: Forwarder, sessions: seq<H.Pair>)
  {
    Loaded(f).Some? ==> forall j :: Loaded(f).value < j < |sessions| ==> sessions[j].client.traffic.queued == []
  }

  /** What the forwarder's send adds to the sessions' queues; no other step adds anything. */
  function Sent(e: Epoch, sessions: seq<H.Pair>, step: Step): seq<Message>
  {
    if step.FwdSend? && e.fwd.FSend? && e.fwd.i < |sessions| && sessions[e.fwd.i].up.open then [e.fwd.m] else []
  }

  /** Only the forwarder queues messages, and only on the session it has loaded. */
  lemma NotSent(cfg: H.Config, e: Epoch, sessions: seq<H.Pair>, step: Step, i: nat)
    requires var act := Act(e, sessions, step);
             act.Some? ==> act.value.0 < |sessions| && H.Can(cfg, sessions[act.value.0], act.value.1)
    requires i < |sessions| && Loaded(e.fwd) != Some(i) && (step.Session? ==> Free(step.s))
    ensures SessionsStep(cfg, e, sessions, step)[i].client.traffic.queued == sessions[i].client.traffic.queued
  {
    var act := Act(e, sessions, step);
    if act.Some? {
      DrivenStep(cfg, sessions[act.value.0], act.value.1);
      if step.Session? {
        FreeStep(cfg, sessions[step.i], step.s);
      }
    }
  }

  /** `a` is `b` with some of its elements left out. */
  predicate Subsequence(a: seq<Message>, b: seq<Message>)
    decreases |b|
  {
    a == [] ||
    (b != [] &&
     ((a[|a| - 1] == b[|b| - 1] && Subsequence(a[..|a| - 1], b[..|b| - 1])) || Subsequence(a, b[..|b| - 1])))
  }

  lemma {:induction false} SubsequenceExtends(a: seq<Message>, b: seq<Message>, c: seq<Message>)
    requires Subsequence(a, b)
    ensures Subsequence(a, b + c) && Subsequence(a + c, b + c)
  {
    if c == [] {
      assert a + c == a && b + c == b;
    } else {
      var n := |c| - 1;
      SubsequenceExtends(a, b, c[..n]);
      assert (b + c)[..|b + c| - 1] == b + c[..n] && (a + c)[..|a + c| - 1] == a + c[..n];
    }
  }

  /** What earlier epochs queued on their sessions, session after session, is part of what they disposed of. */
  predicate SettledInv(b: Books, sessions: seq<H.Pair>)
  {
    b.first <= |sessions| && Subsequence(Queued(sessions[..b.first]), b.settled)
  }

  lemma SettledKept(cfg: H.Config, e: Epoch, b: Books, sessions: seq<H.Pair>, step: Step)
    requires SettledInv(b, sessions) && LoadedInv(e, b.first, |sessions|)
    requires EpochEnabled(e, sessions, step) && BooksEnabled(|b.channel| + 1, b, step)
    requires var act := Act(e, sessions, step);
             act.Some? ==> act.value.0 < |sessions| && H.Can(cfg, sessions[act.value.0], act.value.1)
    ensures SettledInv(BooksStep(e, b, Queued(sessions[b.first..]), |sessions|, step), SessionsStep(cfg, e, sessions, step))
  {
    var sessions' := SessionsStep(cfg, e, sessions, step);
    if step.ConnectBegin? && e.status == Stopped {
      SettledGrows(b, sessions);
    } else {
      forall j | 0 <= j < b.first
        ensures sessions'[j].client.traffic.queued == sessions[j].client.traffic.queued
      {
        NotSent(cfg, e, sessions, step, j);
      }
      QueuedSame(sessions[..b.first], sessions'[..b.first]);
    }
  }

  lemma SettledGrows(b: Books, sessions: seq<H.Pair>)
    requires SettledInv(b, sessions)
    ensures Subsequence(Queued(sessions[..|sessions|]), b.settled + Queued(sessions[b.first..]) + b.dropped)
  {
    var queued := Queued(sessions[b.first..]);
    QueuedConcat(sessions[..b.first], sessions[b.first..]);
    assert sessions[..b.first] + sessions[b.first..] == sessions[..|sessions|];
    SubsequenceExtends(Queued(sessions[..b.first]), b.settled, queued);
    SubsequenceExtends(Queued(sessions[..b.first]) + queued, b.settled + queued, b.dropped);
  }

  lemma QueuedAfter(cfg: H.Config, e: Epoch, sessions: seq<H.Pair>, step: Step, first: nat)
    requires var act := Act(e, sessions, step);
             act.Some? ==> act.value.0 < |sessions| && H.Can(cfg, sessions[act.value.0], act.value.1)
    requires first <= |sessions| && TailInv(e.fwd, sessions)
    requires step.Session? ==> Free(step.s)
    requires Loaded(e.fwd).Some? ==> first <= Loaded(e.fwd).value
    ensures Queued(SessionsStep(cfg, e, sessions, step)[first..]) == Queued(sessions[first..]) + Sent(e, sessions, step)
  {
    var sessions' := SessionsStep(cfg, e, sessions, step);
    if Sent(e, sessions, step) != [] {
      SentLast(cfg, e, sessions, step, first);
    } else if step == LoopConnect(true) {
      assert sessions'[first..] == sessions[first..] + [H.NEW_PAIR];
      assert (sessions[first..] + [H.NEW_PAIR])[..|sessions| - first] == sessions[first..];
    } else {
      forall j | 0 <= j < |sessions|
        ensures sessions'[j].client.traffic.queued == sessions[j].client.traffic.queued
      {
        NothingSent(cfg, e, sessions, step, j);
      }
      QueuedSame(sessions[first..], sessions'[first..]);
    }
  }

  lemma NothingSent(cfg: H.Config, e: Epoch, sessions: seq<H.Pair>, step: Step, j: nat)
    requires var act := Act(e, sessions, step);
             act.Some? ==> act.value.0 < |sessions| && H.Can(cfg, sessions[act.value.0], act.value.1)
    requires j < |sessions| && Sent(e, sessions, step) == [] && (step.Session? ==> Free(step.s))
    ensures SessionsStep(cfg, e, sessions, step)[j].client.traffic.queued == sessions[j].client.traffic.queued
  {
    var act := Act(e, sessions, step);
    if act.Some? {
      DrivenStep(cfg, sessions[act.value.0], act.value.1);
      if step.Session? {
        FreeStep(cfg, sessions[step.i], step.s);
      }
    }
  }

  lemma SentLast(cfg: H.Config, e: Epoch, sessions: seq<H.Pair>, step: Step, first: nat)
    requires var act := Act(e, sessions, step);
             act.Some? ==> act.value.0 < |sessions| && H.Can(cfg, sessions[act.value.0], act.value.1)
    requires Sent(e, sessions, step) != [] && TailInv(e.fwd, sessions) && first <= e.fwd.i
    ensures Queued(SessionsStep(cfg, e, sessions, step)[first..]) == Queued(sessions[first..]) + [e.fwd.m]
  {
    DrivenStep(cfg, sessions[e.fwd.i], Act(e, sessions, step).value.1);
    QueuedAdd(sessions[first..], e.fwd.i - first, SessionsStep(cfg, e, sessions, step)[first..], e.fwd.m);
  }

  lemma BooksKept(e: Epoch, b: Books, queued: seq<Message>, sessions: seq<H.Pair>, step: Step)
    requires OperationInv(e) && BooksInv(e, b, queued)
    requires EpochEnabled(e, sessions, step) && BooksEnabled(|b.channel| + 1, b, step)
    requires Loaded(e.fwd).Some? ==> Loaded(e.fwd).value < |sessions|
    ensures BooksInv(EpochStep(e, b.channel, sessions, step), BooksStep(e, b, queued, |sessions|, step),
                     if step.ConnectBegin? && e.status == Stopped then [] else queued + Sent(e, sessions, step))
  {
    if step.FwdReceive? || step.Drain? {
      BooksTake(e, b, queued, sessions, step);
    } else if step.EmitSend? {
      BooksAccept(e, b, queued, sessions, step.m);
    } else if step.FwdSend? {
      BooksSend(e, b, queued, sessions);
    } else {
      BooksUnmoved(e, b, queued, sessions, step);
    }
    if !step.FwdSend? {
      assert queued + Sent(e, sessions, step) == queued;
    }
  }

  lemma BooksTake(e: Epoch, b: Books, queued: seq<Message>, sessions: seq<H.Pair>, step: Step)
    requires OperationInv(e) && BooksInv(e, b, queued) && b.channel != []
    requires EpochEnabled(e, sessions, step) && (step.FwdReceive? || step.Drain?)
    ensures BooksInv(EpochStep(e, b.channel, sessions, step), BooksStep(e, b, queued, |sessions|, step), queued)
    ensures Sent(e, sessions, step) == []
  {
    assert b.channel == [b.channel[0]] + b.channel[1..];
  }

  lemma BooksAccept(e: Epoch, b: Books, queued: seq<Message>, sessions: seq<H.Pair>, m: Message)
    requires BooksInv(e, b, queued) && 0 < b.emitting
    ensures BooksInv(e, BooksStep(e, b, queued, |sessions|, EmitSend(m)), queued)
  {
    assert b.accepted + [m] == b.settled + queued + b.dropped + Held(e.fwd) + (b.channel + [m]);
  }

  lemma BooksSend(e: Epoch, b: Books, queued: seq<Message>, sessions: seq<H.Pair>)
    requires BooksInv(e, b, queued) && e.fwd.FSend? && e.fwd.i < |sessions|
    ensures BooksInv(EpochStep(e, b.channel, sessions, FwdSend), b, queued + Sent(e, sessions, FwdSend))
  {
    var held' := Held(EpochStep(e, b.channel, sessions, FwdSend).fwd);
    assert Sent(e, sessions, FwdSend) + held' == Held(e.fwd);
    assert b.accepted == b.settled + (queued + Sent(e, sessions, FwdSend)) + held' + b.channel;
  }

  lemma BooksUnmoved(e: Epoch, b: Books, queued: seq<Message>, sessions: seq<H.Pair>, step: Step)
    requires OperationInv(e) && BooksInv(e, b, queued)
    requires EpochEnabled(e, sessions, step) && !step.FwdReceive? && !step.Drain? && !step.EmitSend? && !step.FwdSend?
    ensures BooksInv(EpochStep(e, b.channel, sessions, step), BooksStep(e, b, queued, |sessions|, step),
                     if step.ConnectBegin? && e.status == Stopped then [] else queued)
    ensures Sent(e, sessions, step) == []
  {
    var held' := Held(EpochStep(e, b.channel, sessions, step).fwd);
    if step.FwdDrop? {
      assert b.dropped == [] && held' == [];
    } else {
      assert held' == Held(e.fwd);
    }
  }

  lemma TailKept(cfg: H.Config, e: Epoch, b: Books, sessions: seq<H.Pair>, step: Step)
    requires EpochInv(e, b.first, |sessions|) && TailInv(e.fwd, sessions)
    requires EpochEnabled(e, sessions, step) && (step.FwdReceive? ==> b.channel != [])
    requires var act := Act(e, sessions, step);
             act.Some? ==> act.value.0 < |sessions| && H.Can(cfg, sessions[act.value.0], act.value.1)
    ensures TailInv(EpochStep(e, b.channel, sessions, step).fwd, SessionsStep(cfg, e, sessions, step))
  {
    var act := Act(e, sessions, step);
    if act.Some? {
      DrivenStep(cfg, sessions[act.value.0], act.value.1);
      if step.Session? {
        FreeStep(cfg, sessions[step.i], step.s);
      }
    }
  }

  // ---- Waking the forwarder ----

  /** Why a parked forwarder need not have been woken for this session: it is not Ready, its queue has lost its
      receiver, or its read task has made it Ready and has yet to call `notify_waiters`. */
  predicate Excused(p: H.Pair)
  {
    !p.client.Ready() || !p.up.open || p.client.control.read.RNotify?
  }

  /** Unless it has been woken since it created its `Notified`, a parked forwarder is excused by the current session,
      and one on its second attempt by any session published since it loaded one. */
  predicate WakeInv(e: Epoch, sessions: seq<H.Pair>)
  {
    NeedsExcuse(e) && e.current.value < |sessions| ==> Excused(sessions[e.current.value])
  }

  predicate NeedsExcuse(e: Epoch)
  {
    !e.woken && e.current.Some? &&
    match e.fwd
    case FParked(_) => true
    case FEnsure(_, i, second) => second && e.current != Some(i)
    case FSend(_, i, second) => second && e.current != Some(i)
    case _ => false
  }

  lemma ExcuseLasts(cfg: H.Config, p: H.Pair, s: H.Step)
    requires p.client.Inv() && H.Can(cfg, p, s) && Excused(p)
    requires s.Client? && s.c.AbortRead? ==> Over(p)
    ensures Excused(H.Do(cfg, p, s)) || s == H.Client(C.NotifyWaiters)
  {
  }

  lemma WakeKept(cfg: H.Config, e: Epoch, b: Books, sessions: seq<H.Pair>, step: Step)
    requires EpochInv(e, b.first, |sessions|) && WakeInv(e, sessions) && PairsInv(cfg, sessions)
    requires OwnersInv(e.loop, sessions)
    requires EpochEnabled(e, sessions, step) && (step.FwdReceive? ==> b.channel != [])
    requires var act := Act(e, sessions, step);
             act.Some? ==> act.value.0 < |sessions| && H.Can(cfg, sessions[act.value.0], act.value.1)
    ensures WakeInv(EpochStep(e, b.channel, sessions, step), SessionsStep(cfg, e, sessions, step))
  {
    if step.LoopPublish? {
      PublishedExcused(cfg, sessions[e.loop.i]);
    } else {
      var e' := EpochStep(e, b.channel, sessions, step);
      NeedFollows(e, b.channel, sessions, step);
      if NeedsExcuse(e') {
        var j := e'.current.value;
        if j < |sessions| {
          ExcuseLastsAt(cfg, e, sessions, step, j);
        } else {
          CurrentWithin(e, b.channel, sessions, b.first, step);
        }
      }
    }
  }

  lemma CurrentWithin(e: Epoch, channel: seq<Message>, sessions: seq<H.Pair>, first: nat, step: Step)
    requires LoopInv(e, first, |sessions|) && EpochEnabled(e, sessions, step) && (step.FwdReceive? ==> channel != [])
    requires !step.LoopPublish?
    ensures EpochStep(e, channel, sessions, step).current.Some? ==>
              EpochStep(e, channel, sessions, step).current.value < |sessions|
  {
  }

  lemma ExcuseLastsAt(cfg: H.Config, e: Epoch, sessions: seq<H.Pair>, step: Step, j: nat)
    requires PairsInv(cfg, sessions) && EpochEnabled(e, sessions, step)
    requires var act := Act(e, sessions, step);
             act.Some? ==> act.value.0 < |sessions| && H.Can(cfg, sessions[act.value.0], act.value.1)
    requires j < |sessions| && Excused(sessions[j]) && !(step.Session? && step.s == H.Client(C.NotifyWaiters))
    ensures Excused(SessionsStep(cfg, e, sessions, step)[j])
  {
    var act := Act(e, sessions, step);
    if act.Some? && act.value.0 == j {
      assert H.Inv(cfg, sessions[j]);
      ExcuseLasts(cfg, sessions[j], act.value.1);
    }
  }

  /** Short of publishing a session, no step creates the need for an excuse that the current session does not have. */
  lemma NeedFollows(e: Epoch, channel: seq<Message>, sessions: seq<H.Pair>, step: Step)
    requires WakeInv(e, sessions) && EpochEnabled(e, sessions, step) && (step.FwdReceive? ==> channel != [])
    requires !step.LoopPublish? && LoadedInv(e, 0, |sessions|)
    ensures var e' := EpochStep(e, channel, sessions, step);
            NeedsExcuse(e') && e'.current.value < |sessions| ==>
              Excused(sessions[e'.current.value]) && !(step.Session? && step.s == H.Client(C.NotifyWaiters))
  {
  }

  /** A session is not Ready when it is published. */
  lemma PublishedExcused(cfg: H.Config, p: H.Pair)
    requires H.Inv(cfg, p) && p.client.control.owner.OSpawn?
    ensures H.Can(cfg, p, H.Client(C.Spawn)) && !H.Do(cfg, p, H.Client(C.Spawn)).client.Ready()
  {
  }

  /** A forwarder about to send has seen its session Ready. */
  predicate EmittingInv(f: Forwarder, sessions: seq<H.Pair>)
  {
    f.FSend? && f.i < |sessions| ==> 0 < sessions[f.i].client.pending.emitting
  }

  lemma EmittingKept(cfg: H.Config, e: Epoch, b: Books, sessions: seq<H.Pair>, step: Step)
    requires EpochInv(e, b.first, |sessions|) && EmittingInv(e.fwd, sessions)
    requires EpochEnabled(e, sessions, step) && (step.FwdReceive? ==> b.channel != [])
    requires var act := Act(e, sessions, step);
             act.Some? ==> act.value.0 < |sessions| && H.Can(cfg, sessions[act.value.0], act.value.1)
    ensures EmittingInv(EpochStep(e, b.channel, sessions, step).fwd, SessionsStep(cfg, e, sessions, step))
  {
    if step.Session? {
      FreeStep(cfg, sessions[step.i], step.s);
    }
  }

  // ---- The whole runtime ----

  predicate Inv(cfg: Config, st: State)
  {
    TasksInv(cfg, st) && MessagesInv(st) && ForwarderInv(st)
  }

  predicate TasksInv(cfg: Config, st: State)
  {
    && EpochInv(st.epoch, st.books.first, |st.sessions|)
    && OwnersInv(st.epoch.loop, st.sessions)
    && PairsInv(cfg.session, st.sessions)
  }

  predicate MessagesInv(st: State)
  {
    BooksInv(st.epoch, st.books, ThisEpoch(st)) && SettledInv(st.books, st.sessions)
  }

  predicate ForwarderInv(st: State)
  {
    TailInv(st.epoch.fwd, st.sessions) && WakeInv(st.epoch, st.sessions) && EmittingInv(st.epoch.fwd, st.sessions)
  }

  lemma TasksStep(cfg: Config, st: State, step: Step)
    requires TasksInv(cfg, st) && Can(cfg, st, step)
    ensures TasksInv(cfg, Do(cfg, st, step))
  {
    OperationKept(st.epoch, st.books.channel, st.sessions, step);
    LoopKept(st.epoch, st.books.channel, st.books.first, st.sessions, step);
    LoadedKept(st.epoch, st.books.channel, st.books.first, st.sessions, step);
    OwnersKept(cfg.session, st.epoch, st.books.channel, st.sessions, step);
    PairsKept(cfg.session, st.epoch, st.sessions, step);
    FirstFollows(cfg, st, step);
  }

  lemma FirstFollows(cfg: Config, st: State, step: Step)
    requires Can(cfg, st, step)
    ensures Do(cfg, st, step).books.first == FirstAfter(st.epoch, st.books.first, |st.sessions|, step)
    ensures |Do(cfg, st, step).sessions| == Grown(|st.sessions|, step)
    ensures step.ConnectBegin? ==> Do(cfg, st, step).sessions == st.sessions
  {
  }

  lemma MessagesStep(cfg: Config, st: State, step: Step)
    requires Inv(cfg, st) && Can(cfg, st, step)
    ensures MessagesInv(Do(cfg, st, step))
  {
    BooksFollow(cfg, st, step);
    SettledKept(cfg.session, st.epoch, st.books, st.sessions, step);
  }

  lemma BooksFollow(cfg: Config, st: State, step: Step)
    requires EpochInv(st.epoch, st.books.first, |st.sessions|) && TailInv(st.epoch.fwd, st.sessions)
    requires BooksInv(st.epoch, st.books, ThisEpoch(st)) && Can(cfg, st, step)
    ensures BooksInv(Do(cfg, st, step).epoch, Do(cfg, st, step).books, ThisEpoch(Do(cfg, st, step)))
  {
    ThisEpochFollows(cfg, st, step);
    BooksKept(st.epoch, st.books, Queued(st.sessions[st.books.first..]), st.sessions, step);
  }

  lemma ThisEpochFollows(cfg: Config, st: State, step: Step)
    requires EpochInv(st.epoch, st.books.first, |st.sessions|) && TailInv(st.epoch.fwd, st.sessions) && Can(cfg, st, step)
    ensures ThisEpoch(Do(cfg, st, step)) ==
              if step.ConnectBegin? && st.epoch.status == Stopped then []
              else Queued(st.sessions[st.books.first..]) + Sent(st.epoch, st.sessions, step)
  {
    QueuedAfter(cfg.session, st.epoch, st.sessions, step, st.books.first);
    FirstFollows(cfg, st, step);
    if step.ConnectBegin? && st.epoch.status == Stopped {
      assert st.sessions[|st.sessions|..] == [];
    }
  }

  lemma ForwarderStep(cfg: Config, st: State, step: Step)
    requires Inv(cfg, st) && Can(cfg, st, step)
    ensures ForwarderInv(Do(cfg, st, step))
  {
    TailKept(cfg.session, st.epoch, st.books, st.sessions, step);
    WakeKept(cfg.session, st.epoch, st.books, st.sessions, step);
    EmittingKept(cfg.session, st.epoch, st.books, st.sessions, step);
  }

  lemma InvStep(cfg: Config, st: State, step: Step)
    requires Inv(cfg, st) && Can(cfg, st, step)
    ensures Inv(cfg, Do(cfg, st, step))
  {
    TasksStep(cfg, st, step);
    MessagesStep(cfg, st, step);
    ForwarderStep(cfg, st, step);
  }
}
