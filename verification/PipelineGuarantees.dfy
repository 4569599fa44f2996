/** What holds in every run of the client runtime. */
module PipelineGuarantees {
  import opened Options
  import opened Packets
  import opened EventPipeline
  import H = Handshake
  import C = ClientSession

  /** `steps` lead from `st` to `st'`. */
  ghost predicate Run(cfg: Config, st: State, steps: seq<Step>, st': State)
    decreases |steps|
  {
    if steps == [] then st == st'
    else Can(cfg, st, steps[0]) && Run(cfg, Do(cfg, st, steps[0]), steps[1..], st')
  }

  lemma InvInit(cfg: Config)
    ensures Inv(cfg, NEW_STATE)
  {
  }

  lemma {:induction false} InvRun(cfg: Config, st: State, steps: seq<Step>, st': State)
    requires Inv(cfg, st) && Run(cfg, st, steps, st')
    ensures Inv(cfg, st')
    decreases |steps|
  {
    if steps != [] {
      InvStep(cfg, st, steps[0]);
      InvRun(cfg, Do(cfg, st, steps[0]), steps[1..], st');
    }
  }

  ghost predicate Reachable(cfg: Config, st: State)
  {
    exists steps :: Run(cfg, NEW_STATE, steps, st)
  }

  lemma InvReachable(cfg: Config, st: State)
    requires Reachable(cfg, st)
    ensures Inv(cfg, st)
  {
    InvInit(cfg);
    var steps :| Run(cfg, NEW_STATE, steps, st);
    InvRun(cfg, NEW_STATE, steps, st);
  }

  lemma {:induction false} RunAppend(cfg: Config, st: State, steps: seq<Step>, st': State, step: Step)
    requires Run(cfg, st, steps, st') && Can(cfg, st', step)
    ensures Run(cfg, st, steps + [step], Do(cfg, st', step))
    decreases |steps|
  {
    if steps == [] {
      assert Run(cfg, Do(cfg, st, step), [], Do(cfg, st, step));
    } else {
      RunAppend(cfg, Do(cfg, st, steps[0]), steps[1..], st', step);
      assert (steps + [step])[1..] == steps[1..] + [step];
    }
  }

  lemma ReachableStep(cfg: Config, st: State, step: Step)
    requires Reachable(cfg, st) && Can(cfg, st, step)
    ensures Reachable(cfg, Do(cfg, st, step))
  {
    var steps :| Run(cfg, NEW_STATE, steps, st);
    RunAppend(cfg, NEW_STATE, steps, st, step);
  }

  lemma ReachableInit(cfg: Config)
    ensures Reachable(cfg, NEW_STATE)
  {
    assert Run(cfg, NEW_STATE, [], NEW_STATE);
  }

  lemma EpochHolds(cfg: Config, st: State)
    requires Reachable(cfg, st)
    ensures EpochInv(st.epoch, st.books.first, |st.sessions|)
  {
    InvReachable(cfg, st);
  }

  lemma OperationHolds(cfg: Config, st: State)
    requires Reachable(cfg, st)
    ensures OperationInv(st.epoch)
    ensures st.epoch.current.Some? ==> st.epoch.current.value < |st.sessions|
    ensures LoopSession(st.epoch.loop).Some? ==> LoopSession(st.epoch.loop).value < |st.sessions|
    ensures Loaded(st.epoch.fwd).Some? ==> st.books.first <= Loaded(st.epoch.fwd).value < |st.sessions|
  {
    EpochHolds(cfg, st);
  }

  lemma MessagesHold(cfg: Config, st: State)
    requires Reachable(cfg, st)
    ensures st.books.first <= |st.sessions| && MessagesInv(st)
  {
    InvReachable(cfg, st);
  }

  lemma ForwarderHolds(cfg: Config, st: State)
    requires Reachable(cfg, st)
    ensures ForwarderInv(st)
  {
    InvReachable(cfg, st);
  }

  lemma PairHolds(cfg: Config, st: State, i: nat)
    requires Reachable(cfg, st) && i < |st.sessions|
    ensures H.Inv(cfg.session, st.sessions[i])
  {
    InvReachable(cfg, st);
  }

  // ---- Ordering, conservation, no duplication ----

  lemma {:induction false} QueuedSplit(a: seq<H.Pair>, i: nat)
    requires i < |a|
    ensures Queued(a[..i]) + a[i].client.traffic.queued <= Queued(a)
  {
    if i == |a| - 1 {
    } else {
      var rest := a[..|a| - 1];
      QueuedSplit(rest, i);
      assert rest[..i] == a[..i] && rest[i] == a[i];
    }
  }

  /** Within a connect epoch nothing is lost, reordered or duplicated: what the emit channel has accepted since the
      epoch began is what its sessions have queued, session after session, then what its disconnect has dropped,
      then the message in the forwarder's hands, then the channel; and nothing is dropped while the forwarder lives. */
  lemma AcceptedInOrder(cfg: Config, st: State)
    requires Reachable(cfg, st)
    ensures var b := st.books;
            && b.first <= |st.sessions|
            && b.accepted == b.settled + Queued(st.sessions[b.first..]) + b.dropped + Held(st.epoch.fwd) + b.channel
            && (!st.epoch.fwd.FNone? ==> b.dropped == [])
  {
    MessagesHold(cfg, st);
  }

  /** Where the run of session `i` starts in the accepted order. */
  function RunStart(st: State, i: nat): nat
    requires st.books.first <= i < |st.sessions|
  {
    |st.books.settled| + |Queued(st.sessions[st.books.first..i])|
  }

  /** Each session of the epoch has queued a consecutive run of the accepted order, the runs of later sessions start
      where those of earlier ones end or later, and what the server dispatched is a prefix of the session's run. */
  lemma SessionsQueueConsecutiveRuns(cfg: Config, st: State, i: nat, j: nat)
    requires Reachable(cfg, st) && st.books.first <= i < j < |st.sessions|
    ensures IsRun(st, i) && IsRun(st, j)
    ensures RunStart(st, i) + |st.sessions[i].client.traffic.queued| <= RunStart(st, j)
    ensures st.sessions[i].server.traffic.dispatched <= st.sessions[i].client.traffic.queued
    ensures st.sessions[j].server.traffic.dispatched <= st.sessions[j].client.traffic.queued
  {
    MessagesHold(cfg, st);
    SessionQueuesRun(st, i);
    SessionQueuesRun(st, j);
    RunsInOrder(st, i, j);
    PairHolds(cfg, st, i);
    PairHolds(cfg, st, j);
  }

  lemma RunsInOrder(st: State, i: nat, j: nat)
    requires st.books.first <= i < j < |st.sessions|
    ensures RunStart(st, i) + |st.sessions[i].client.traffic.queued| <= RunStart(st, j)
  {
    var upto := st.sessions[st.books.first..j];
    assert upto[i - st.books.first] == st.sessions[i];
    assert upto[..i - st.books.first] == st.sessions[st.books.first..i];
    QueuedSplit(upto, i - st.books.first);
  }

  /** `run` is what `whole` holds from `start` on. */
  predicate SliceAt(whole: seq<Message>, start: nat, run: seq<Message>)
  {
    start + |run| <= |whole| && whole[start..start + |run|] == run
  }

  predicate IsRun(st: State, i: nat)
    requires st.books.first <= i < |st.sessions|
  {
    SliceAt(st.books.accepted, RunStart(st, i), st.sessions[i].client.traffic.queued)
  }

  lemma SessionQueuesRun(st: State, i: nat)
    requires MessagesInv(st) && st.books.first <= i < |st.sessions|
    ensures IsRun(st, i)
  {
    var b := st.books;
    var epoch := st.sessions[b.first..];
    QueuedSplit(epoch, i - b.first);
    assert epoch[..i - b.first] == st.sessions[b.first..i] && epoch[i - b.first] == st.sessions[i];
    Regroup(b.settled, Queued(epoch), b.dropped, Held(st.epoch.fwd), b.channel);
    SliceOf(b.settled, Queued(st.sessions[b.first..i]), st.sessions[i].client.traffic.queued, Queued(epoch),
            b.dropped + Held(st.epoch.fwd) + b.channel);
  }

  lemma Regroup(a: seq<Message>, b: seq<Message>, c: seq<Message>, d: seq<Message>, e: seq<Message>)
    ensures a + b + c + d + e == a + b + (c + d + e)
  {
  }

  lemma SliceOf(a: seq<Message>, x: seq<Message>, run: seq<Message>, all: seq<Message>, c: seq<Message>)
    requires x + run <= all
    ensures SliceAt(a + all + c, |a| + |x|, run)
  {
    var rest := all[|x + run|..];
    assert all == x + run + rest;
    assert a + all + c == (a + x) + run + (rest + c);
  }

  /** Across all epochs, what the sessions have queued, session after session, is the accepted order with some messages
      left out. */
  lemma QueuedInAcceptedOrder(cfg: Config, st: State)
    requires Reachable(cfg, st)
    ensures Subsequence(Queued(st.sessions), st.books.accepted)
  {
    MessagesHold(cfg, st);
    QueuedWithin(st.epoch, st.books, st.sessions);
  }

  lemma QueuedWithin(e: Epoch, b: Books, sessions: seq<H.Pair>)
    requires SettledInv(b, sessions) && BooksInv(e, b, Queued(sessions[b.first..]))
    ensures Subsequence(Queued(sessions), b.accepted)
  {
    var queued := Queued(sessions[b.first..]);
    var rest := b.dropped + Held(e.fwd) + b.channel;
    Regroup(b.settled, queued, b.dropped, Held(e.fwd), b.channel);
    SubsequenceInside(Queued(sessions[..b.first]), b.settled, queued, rest, b.accepted);
    QueuedConcat(sessions[..b.first], sessions[b.first..]);
    assert sessions[..b.first] + sessions[b.first..] == sessions;
  }

  lemma SubsequenceInside(a: seq<Message>, b: seq<Message>, c: seq<Message>, d: seq<Message>, whole: seq<Message>)
    requires Subsequence(a, b) && whole == b + c + d
    ensures Subsequence(a + c, whole)
  {
    SubsequenceExtends(a, b, c);
    SubsequenceExtends(a + c, b + c, d);
  }

  predicate Distinct(a: seq<Message>)
  {
    forall k, l :: 0 <= k < l < |a| ==> a[k] != a[l]
  }

  lemma {:induction false} SubsequenceDistinct(a: seq<Message>, b: seq<Message>)
    requires Subsequence(a, b) && Distinct(b)
    ensures Distinct(a) && forall m :: m in a ==> m in b
    decreases |b|
  {
    if a != [] {
      var a', b' := a[..|a| - 1], b[..|b| - 1];
      if a[|a| - 1] == b[|b| - 1] && Subsequence(a', b') {
        SubsequenceDistinct(a', b');
        assert a == a' + [a[|a| - 1]] && b == b' + [b[|b| - 1]];
        assert b[|b| - 1] !in b';
      } else {
        SubsequenceDistinct(a, b');
      }
    }
  }

  /** If the accepted messages are distinct, no message is ever queued twice: not on one session, nor on two sessions
      of the same epoch, nor on sessions of different epochs. */
  lemma NoMessageTwice(cfg: Config, st: State, i: nat, x: nat, j: nat, y: nat)
    requires Reachable(cfg, st) && Distinct(st.books.accepted)
    requires i <= j < |st.sessions|
    requires x < |st.sessions[i].client.traffic.queued| && y < |st.sessions[j].client.traffic.queued|
    requires st.sessions[i].client.traffic.queued[x] == st.sessions[j].client.traffic.queued[y]
    ensures i == j && x == y
  {
    QueuedInAcceptedOrder(cfg, st);
    SubsequenceDistinct(Queued(st.sessions), st.books.accepted);
    DistinctPlaces(st.sessions, i, x, j, y);
  }

  lemma DistinctPlaces(a: seq<H.Pair>, i: nat, x: nat, j: nat, y: nat)
    requires Distinct(Queued(a)) && i <= j < |a|
    requires x < |a[i].client.traffic.queued| && y < |a[j].client.traffic.queued|
    requires a[i].client.traffic.queued[x] == a[j].client.traffic.queued[y]
    ensures i == j && x == y
  {
    QueuedSplit(a, i);
    QueuedSplit(a, j);
    assert Queued(a)[|Queued(a[..i])| + x] == a[i].client.traffic.queued[x];
    assert Queued(a)[|Queued(a[..j])| + y] == a[j].client.traffic.queued[y];
    QueuedApart(a, i, j);
  }

  /** The places of an earlier session's events come before those of a later one's. */
  lemma QueuedApart(a: seq<H.Pair>, i: nat, j: nat)
    requires i <= j < |a|
    ensures i < j ==> |Queued(a[..i])| + |a[i].client.traffic.queued| <= |Queued(a[..j])|
  {
    if i < j {
      QueuedSplit(a[..j], i);
      assert a[..j][..i] == a[..i];
    }
  }

  /** Once an epoch is over, what its sessions have queued never changes again. */
  lemma {:induction false} EarlierEpochsFrozen(cfg: Config, st: State, steps: seq<Step>, st': State, i: nat)
    requires Inv(cfg, st) && Run(cfg, st, steps, st') && i < st.books.first
    ensures i < st'.books.first && i < |st'.sessions|
    ensures st'.sessions[i].client.traffic.queued == st.sessions[i].client.traffic.queued
    decreases |steps|
  {
    if steps != [] {
      EpochOf(cfg, st);
      FrozenStep(cfg, st, steps[0], i);
      InvStep(cfg, st, steps[0]);
      EarlierEpochsFrozen(cfg, Do(cfg, st, steps[0]), steps[1..], st', i);
    }
  }

  lemma EpochOf(cfg: Config, st: State)
    requires Inv(cfg, st)
    ensures EpochInv(st.epoch, st.books.first, |st.sessions|)
  {
  }

  lemma FrozenStep(cfg: Config, st: State, step: Step, i: nat)
    requires EpochInv(st.epoch, st.books.first, |st.sessions|) && Can(cfg, st, step) && i < st.books.first
    ensures i < Do(cfg, st, step).books.first && i < |Do(cfg, st, step).sessions|
    ensures Do(cfg, st, step).sessions[i].client.traffic.queued == st.sessions[i].client.traffic.queued
  {
    FirstFollows(cfg, st, step);
    NotSent(cfg.session, st.epoch, st.sessions, step, i);
  }

  // ---- No lost wake-up ----

  /** Whenever the forwarder is parked with a message and has not been woken, there is no current session, or it is not
      Ready, or its queue has lost its receiver, or its `notify_waiters` call is still to come. */
  lemma NoLostWakeUp(cfg: Config, st: State)
    requires Reachable(cfg, st) && st.epoch.fwd.FParked? && !st.epoch.woken
    ensures st.epoch.current.Some? ==>
              && st.epoch.current.value < |st.sessions|
              && (var p := st.sessions[st.epoch.current.value];
                  !p.client.Ready() || !p.up.open || p.client.control.read.RNotify?)
  {
    EpochHolds(cfg, st);
    ForwarderHolds(cfg, st);
  }

  /** A forwarder that has found its session Ready sends, or fails to, exactly when the session's channel has room or
      has lost its receiver; otherwise the write task has something to take from it. */
  lemma SendWaitsForRoom(cfg: Config, st: State)
    requires Reachable(cfg, st) && st.epoch.fwd.FSend?
    ensures st.epoch.fwd.i < |st.sessions|
    ensures Can(cfg, st, FwdSend) <==> st.sessions[st.epoch.fwd.i].up.Accepts(cfg.session.clientCapacity)
    ensures !Can(cfg, st, FwdSend) ==> Can(cfg, st, Session(st.epoch.fwd.i, H.WriteUp))
  {
    OperationHolds(cfg, st);
    ForwarderHolds(cfg, st);
    EmitCan(cfg.session, st.sessions[st.epoch.fwd.i], st.epoch.fwd.m);
  }

  lemma EmitCan(cfg: H.Config, p: H.Pair, m: Message)
    requires 0 < p.client.pending.emitting
    ensures H.Can(cfg, p, H.Client(C.EmitSend(m, p.up.open))) <==> p.up.Accepts(cfg.clientCapacity)
    ensures !p.up.Accepts(cfg.clientCapacity) ==> H.Can(cfg, p, H.WriteUp)
  {
  }

  /** What a successful send does to the order: the message comes last in this epoch's queues. */
  lemma SendAppends(cfg: Config, st: State)
    requires Reachable(cfg, st) && st.epoch.fwd.FSend? && Can(cfg, st, FwdSend)
    ensures Loaded(st.epoch.fwd).value < |st.sessions|
    ensures ThisEpoch(Do(cfg, st, FwdSend)) == ThisEpoch(st) + Sent(st.epoch, st.sessions, FwdSend)
  {
    EpochHolds(cfg, st);
    ForwarderHolds(cfg, st);
    ThisEpochFollows(cfg, st, FwdSend);
  }

  /** While the forwarder lives, no step but its own send changes what this epoch's sessions have queued. */
  lemma OnlySendAppends(cfg: Config, st: State, step: Step)
    requires Reachable(cfg, st) && Can(cfg, st, step) && !step.FwdSend? && !st.epoch.fwd.FNone?
    ensures ThisEpoch(Do(cfg, st, step)) == ThisEpoch(st)
  {
    EpochHolds(cfg, st);
    ForwarderHolds(cfg, st);
    ThisEpochFollows(cfg, st, step);
  }

  lemma CheckIsPossible(cfg: Config, st: State)
    requires Reachable(cfg, st) && st.epoch.fwd.FEnsure?
    ensures st.epoch.fwd.i < |st.sessions| && H.Can(cfg.session, st.sessions[st.epoch.fwd.i], H.Client(C.EmitEnsure))
    ensures Can(cfg, st, FwdEnsure)
  {
    OperationHolds(cfg, st);
  }

  // ---- Epochs ----

  /** The `unreachable!` arm of a `connect` or a `disconnect` that takes the lock is reached if and only if the caller
      of an earlier `disconnect` dropped it after it had stored Stopping. */
  lemma ArmReachedIffAbandoned(cfg: Config, st: State)
    requires Reachable(cfg, st) && (Can(cfg, st, ConnectBegin) || Can(cfg, st, DisconnectBegin))
    ensures st.epoch.status == Stopping <==> st.epoch.abandoned
  {
    EpochHolds(cfg, st);
  }

  /** So it is never reached while every `disconnect` runs to completion. */
  lemma UnreachableArms(cfg: Config, steps: seq<Step>, st: State)
    requires Run(cfg, NEW_STATE, steps, st) && (Can(cfg, st, ConnectBegin) || Can(cfg, st, DisconnectBegin))
    requires forall i :: 0 <= i < |steps| ==> !steps[i].DropDisconnect?
    ensures st.epoch.status == Running || st.epoch.status == Stopped
  {
    NeverAbandoned(cfg, NEW_STATE, steps, st);
    ArmReachedIffAbandoned(cfg, st);
  }

  lemma {:induction false} NeverAbandoned(cfg: Config, st: State, steps: seq<Step>, st': State)
    requires Run(cfg, st, steps, st') && !st.epoch.abandoned
    requires forall i :: 0 <= i < |steps| ==> !steps[i].DropDisconnect?
    ensures !st'.epoch.abandoned
    decreases |steps|
  {
    if steps != [] {
      assert !steps[0].DropDisconnect?;
      AbandonedFollows(cfg, st, steps[0]);
      NeverAbandoned(cfg, Do(cfg, st, steps[0]), steps[1..], st');
    }
  }

  lemma AbandonedFollows(cfg: Config, st: State, step: Step)
    requires Can(cfg, st, step)
    ensures Do(cfg, st, step).epoch.abandoned == (st.epoch.abandoned || step.DropDisconnect?)
  {
    Abandons(st.epoch, st.books.channel, st.sessions, step);
  }

  lemma Abandons(e: Epoch, channel: seq<Message>, sessions: seq<H.Pair>, step: Step)
    requires EpochEnabled(e, sessions, step) && (step.FwdReceive? ==> channel != [])
    ensures EpochStep(e, channel, sessions, step).abandoned == (e.abandoned || step.DropDisconnect?)
  {
  }

  /** And once it has been reached it always will be: no later call gets past it. */
  lemma {:induction false} AbandonedForGood(cfg: Config, st: State, steps: seq<Step>, st': State)
    requires Reachable(cfg, st) && st.epoch.abandoned && Run(cfg, st, steps, st')
    ensures st'.epoch.op.Idle? && st'.epoch.status == Stopping && st'.epoch.abandoned
    decreases |steps|
  {
    EpochHolds(cfg, st);
    if steps != [] {
      AbandonedFollows(cfg, st, steps[0]);
      ReachableStep(cfg, st, steps[0]);
      AbandonedForGood(cfg, Do(cfg, st, steps[0]), steps[1..], st');
    }
  }

  /** A `connect` never displaces a task that is still alive: there is at most one connection loop, and at most one
      forwarder, which alone owns the receiver; and while a `disconnect` drains the channel there is none. */
  lemma OneLoopOneForwarder(cfg: Config, st: State)
    requires Reachable(cfg, st)
    ensures Can(cfg, st, SpawnLoop) ==> st.epoch.loop.LNone? && st.epoch.current == None
    ensures Can(cfg, st, SpawnForwarder) ==> st.epoch.fwd.FNone?
    ensures Can(cfg, st, Drain) || Can(cfg, st, Drained) ==> st.epoch.fwd.FNone?
    ensures Can(cfg, st, FwdLockRx) ==> !st.epoch.op.DDrain? && !st.epoch.op.DJoin?
  {
    EpochHolds(cfg, st);
  }

  /** At most one session is current, and it is the only one that has not been cleaned up. */
  lemma OneLiveSession(cfg: Config, st: State, i: nat)
    requires Reachable(cfg, st) && i < |st.sessions| && st.epoch.current == Some(i)
    ensures forall j :: 0 <= j < |st.sessions| && j != i ==> CleanedUp(st.sessions[j])
  {
    InvReachable(cfg, st);
    AllButOneCleanedUp(cfg, st);
  }

  /** `cleanup` has run to its end, and the session is no longer live. */
  predicate CleanedUp(p: H.Pair)
  {
    p.client.control.owner.ODone? && !C.Live(p.client.control.state)
  }

  lemma AllButOneCleanedUp(cfg: Config, st: State)
    requires TasksInv(cfg, st)
    ensures forall j :: 0 <= j < |st.sessions| && LoopSession(st.epoch.loop) != Some(j) ==> CleanedUp(st.sessions[j])
  {
    forall j | 0 <= j < |st.sessions| && LoopSession(st.epoch.loop) != Some(j)
      ensures CleanedUp(st.sessions[j])
    {
      assert H.Inv(cfg.session, st.sessions[j]);
    }
  }

  /** When a `disconnect` that found the client Running returns, every session has been cleaned up, none is current,
      no task of the epoch is left and the status is Stopped. */
  lemma DisconnectLeavesNothing(cfg: Config, st: State)
    requires Reachable(cfg, st) && Can(cfg, st, JoinLoop)
    ensures var st' := Do(cfg, st, JoinLoop);
            && st'.epoch.status == Stopped && st'.epoch.op.Idle?
            && st'.epoch.current == None && st'.epoch.loop.LNone? && st'.epoch.fwd.FNone?
            && forall j :: 0 <= j < |st'.sessions| ==> CleanedUp(st'.sessions[j])
  {
    EpochHolds(cfg, st);
    BetweenConnections(cfg, st);
    assert Do(cfg, st, JoinLoop).sessions == st.sessions;
  }

  // ---- The connection loop ----

  /** The steps with which the loop drives its session: where the loop stands before, what the session does,
      and where the loop stands after. */
  datatype Drive = StartInit | Publish | AbortRead | CloseWriter | StartCleanup | FinishCleanup {
    function From(i: nat): Loop
    {
      match this
      case StartInit => LInit(i)
      case Publish => LPublish(i)
      case AbortRead => LServe(i)
      case CloseWriter => LStop(i)
      case StartCleanup => LCleanup(i)
      case FinishCleanup => LFinish(i)
    }

    function To(i: nat): Loop
    {
      match this
      case StartInit => LPublish(i)
      case Publish => LServe(i)
      case AbortRead => LStop(i)
      case CloseWriter => LUnpublish(i)
      case StartCleanup => LFinish(i)
      case FinishCleanup => LAfter
    }

    function Step(): Step
    {
      match this
      case StartInit => LoopInit
      case Publish => LoopPublish
      case AbortRead => LoopAbortRead
      case CloseWriter => LoopCloseWriter
      case StartCleanup => LoopCleanup
      case FinishCleanup => LoopFinish
    }

    function OnSession(): H.Step
    {
      match this
      case StartInit => H.Client(C.Init)
      case Publish => H.Client(C.Spawn)
      case AbortRead => H.Client(C.AbortRead)
      case CloseWriter => H.CloseUp
      case StartCleanup => H.Client(C.CleanupStart)
      case FinishCleanup => H.Client(C.CleanupFinish)
    }
  }

  /** The loop is never stuck on its session: whatever other tasks have done to it, it can be driven on. */
  lemma LoopCanDrive(cfg: Config, st: State, i: nat, d: Drive)
    requires Reachable(cfg, st) && st.epoch.loop == d.From(i)
    requires d.AbortRead? ==> i < |st.sessions| && Over(st.sessions[i])
    ensures i < |st.sessions| && H.Can(cfg.session, st.sessions[i], d.OnSession()) && Can(cfg, st, d.Step())
  {
    OperationHolds(cfg, st);
    OwnerHolds(cfg, st, i);
    DriveEnabled(st.epoch, st.sessions, i, d);
    OwnerCan(cfg.session, st.epoch.loop, st.sessions[i], i, d);
  }

  lemma DriveEnabled(e: Epoch, sessions: seq<H.Pair>, i: nat, d: Drive)
    requires e.loop == d.From(i) && i < |sessions| && (d.AbortRead? ==> Over(sessions[i]))
    ensures EpochEnabled(e, sessions, d.Step()) && Act(e, sessions, d.Step()) == Some((i, d.OnSession()))
  {
  }

  lemma OwnerCan(cfg: H.Config, loop: Loop, p: H.Pair, i: nat, d: Drive)
    requires loop == d.From(i) && p.client.control.owner == Owner(loop, i) && C.ControlInv(p.client.control)
    ensures H.Can(cfg, p, d.OnSession())
  {
  }

  lemma DriveDoes(cfg: Config, st: State, i: nat, d: Drive)
    requires st.epoch.loop == d.From(i) && Can(cfg, st, d.Step())
    requires i < |st.sessions| && H.Can(cfg.session, st.sessions[i], d.OnSession())
    ensures var st' := Do(cfg, st, d.Step());
            && st'.epoch == st.epoch.(loop := d.To(i), current := if d.Publish? then Some(i) else st.epoch.current)
            && st'.books == st.books
            && st'.sessions == st.sessions[i := H.Do(cfg.session, st.sessions[i], d.OnSession())]
  {
  }

  /** A message in the channel is dropped, and nothing else changes. */
  lemma DrainDoes(cfg: Config, st: State)
    requires Can(cfg, st, Drain)
    ensures st.books.channel != []
    ensures Do(cfg, st, Drain) ==
              st.(books := st.books.(channel := st.books.channel[1..], dropped := st.books.dropped + [st.books.channel[0]]))
  {
  }

  /** A session's write task acts, and nothing else changes. */
  lemma WriterDoes(cfg: Config, st: State, i: nat, s: H.Step)
    requires i < |st.sessions| && (s.WriteUp? || s.CloseUp?) && H.Can(cfg.session, st.sessions[i], s)
    ensures Can(cfg, st, Session(i, s))
    ensures Do(cfg, st, Session(i, s)) == st.(sessions := st.sessions[i := H.Do(cfg.session, st.sessions[i], s)])
  {
  }

  lemma OwnerHolds(cfg: Config, st: State, i: nat)
    requires Reachable(cfg, st) && i < |st.sessions|
    ensures C.ControlInv(st.sessions[i].client.control)
    ensures st.sessions[i].client.control.owner == Owner(st.epoch.loop, i)
  {
    InvReachable(cfg, st);
    assert H.Inv(cfg.session, st.sessions[i]);
  }

  lemma BetweenConnections(cfg: Config, st: State)
    requires Reachable(cfg, st) && LoopSession(st.epoch.loop) == None
    ensures st.epoch.current == None && forall j :: 0 <= j < |st.sessions| ==> CleanedUp(st.sessions[j])
  {
    InvReachable(cfg, st);
    AllButOneCleanedUp(cfg, st);
  }
}
