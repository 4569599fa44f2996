/** The client's objects as the source updates them. As on the server, a ghost `view` carries the state of the machine,
    every method performs actions of that machine, and other tasks may act wherever the source awaits. `sent` is history:
    the packets a session has queued. */
module ClientObjects {
  import opened Options
  import opened Packets
  import H = Handshake
  import C = ClientSession
  import P = EventPipeline
  import G = PipelineGuarantees

  class WsIoClientSession {
    const hasInitHandler: bool
    const capacity: Capacity
    var state: C.SessionState
    var channel: Link
    ghost var sent: seq<Packet>
    ghost var view: C.Session

    ghost predicate Valid()
      reads this
    {
      && view.Inv() && state == view.control.state
      && (view.traffic.initSent <==> InitPacket in sent)
      && view.traffic.queued == Events(sent)
    }

    constructor (hasInitHandler: bool, capacity: Capacity)
      ensures this.hasInitHandler == hasInitHandler && this.capacity == capacity
      ensures Valid() && view == C.NEW_SESSION && channel == FRESH_LINK && sent == []
    {
      this.hasInitHandler := hasInitHandler;
      this.capacity := capacity;
      state := C.Created;
      channel := FRESH_LINK;
      sent := [];
      view := C.NEW_SESSION;
    }

    ghost method Act(a: C.Action)
      requires view.Inv() && view.Can(a)
      modifies this`view
      ensures view == old(view).Do(hasInitHandler, a) && view.Inv()
    {
      C.InvStep(hasInitHandler, view, a);
      view := view.Do(hasInitHandler, a);
    }

    /** The other tasks act while the read task is suspended. */
    method OthersAct()
      requires Valid()
      modifies this
      ensures Valid() && view.control.read == old(view.control.read)
    {
    }

    /** While a send waits, the write task takes packets from the channel. */
    method AwaitRoom()
      modifies this`channel
      ensures channel.Accepts(capacity) && channel.waiting <= old(channel.waiting)
      ensures channel.queue == old(channel.queue) && channel.open == old(channel.open) && channel.cut == old(channel.cut)
    {
      while !channel.Accepts(capacity)
        invariant channel.waiting <= old(channel.waiting)
        invariant channel.queue == old(channel.queue) && channel.open == old(channel.open) && channel.cut == old(channel.cut)
        decreases channel.waiting
      {
        channel := channel.Write();
      }
    }

    /** `send`: it waits for room. */
    method Send(packet: Packet) returns (ok: bool)
      modifies this`channel, this`sent
      ensures ok == old(channel).open && channel.queue == old(channel).Send(packet).queue
      ensures sent == old(sent) + if ok then [packet] else []
      ensures Events(sent) == Events(old(sent)) + if ok && packet.EventPacket? then [packet.message] else []
    {
      AwaitRoom();
      ok := channel.open;
      channel := channel.Send(packet);
      if ok {
        EventsAdd(sent, packet);
        sent := sent + [packet];
      }
    }

    /** `try_send` of a close frame: it does not wait. */
    method TrySendClose() returns (queued: bool)
      modifies this`channel, this`sent
      ensures queued == old(channel).Takes(capacity)
      ensures channel == if queued then old(channel).Send(CloseFrame) else old(channel)
      ensures Events(sent) == Events(old(sent)) && (InitPacket in sent <==> InitPacket in old(sent))
    {
      queued := channel.Takes(capacity);
      if queued {
        channel := channel.Send(CloseFrame);
        EventsAdd(sent, CloseFrame);
        sent := sent + [CloseFrame];
      }
    }

    method Init()
      requires Valid() && view.control.owner.OInit?
      modifies this
      ensures Valid() && state == C.AwaitingInit && view.control.owner.OSpawn?
    {
      state := C.AwaitingInit;
      Act(C.Init);
    }

    /** It returns Ok exactly when the session has reached AwaitingReady and the Init packet was queued. */
    method HandleInitPacket(handlerOk: bool) returns (ok: bool)
      requires Valid() && view.control.read.RWait?
      modifies this
      ensures Valid()
      ensures if ok then view.control.read.RWait? && InitPacket in sent else view.control.read.REnded?
      ensures ok ==> C.AwaitingReady in view.control.entered
    {
      ok := AcceptInit();
      if !ok {
        return;
      }
      OthersAct();
      ok := RunInitHandler(handlerOk);
      if !ok {
        return;
      }
      OthersAct();
      ok := Send(InitPacket);
      Act(C.SendInit(ok));
      C.EnteredByCount(view.control);
    }

    method AcceptInit() returns (ok: bool)
      requires Valid() && view.control.read.RWait?
      modifies this
      ensures Valid() && view.control.read == if ok then C.RBefore else C.REnded
      ensures ok ==> state == C.Initiating
    {
      var seen := state;
      Act(C.Receive(InitPacket));
      if seen != C.AwaitingInit {
        return false;
      }
      OthersAct();
      ok := state == C.AwaitingInit;
      Act(C.InitPacketCas);
      if ok {
        state := C.Initiating;
      }
    }

    method RunInitHandler(handlerOk: bool) returns (ok: bool)
      requires Valid() && view.control.read.RBefore?
      modifies this
      ensures Valid() && view.control.read == if ok then C.RSendInit else C.REnded
      ensures ok ==> state == C.AwaitingReady
    {
      Act(C.HandlerStart);
      if hasInitHandler {
        OthersAct();
        Act(C.HandlerDone(handlerOk));
        if !handlerOk {
          return false;
        }
      }
      ok := state == C.Initiating;
      Act(C.AwaitReadyCas);
      if ok {
        state := C.AwaitingReady;
      }
    }

    /** It returns Ok exactly when the session became Ready; then the forwarder has been woken. */
    method HandleReadyPacket() returns (ok: bool)
      requires Valid() && view.control.read.RWait?
      modifies this
      ensures Valid()
      ensures if ok then view.control.read.RWait? && C.Ready in view.control.entered else view.control.read.REnded?
    {
      var seen := state;
      Act(C.Receive(ReadyPacket));
      if seen != C.AwaitingReady {
        return false;
      }
      OthersAct();
      ok := state == C.AwaitingReady;
      Act(C.ReadyCas);
      if ok {
        state := C.Ready;
        OthersAct();
        Act(C.NotifyWaiters);
        C.EnteredByCount(view.control);
      }
    }

    method EmitEventMessage(m: Message) returns (ok: bool)
      requires Valid()
      modifies this`channel, this`sent, this`view
      ensures Valid()
      ensures ok == (state == C.Ready && old(channel).open)
      ensures channel.queue == if state == C.Ready then old(channel).Send(EventPacket(m)).queue else old(channel.queue)
      ensures view.traffic.queued == old(view.traffic.queued) + if ok then [m] else []
    {
      Act(C.EmitEnsure);
      if state != C.Ready {
        return false;
      }
      ok := Send(EventPacket(m));
      Act(C.EmitSend(m, ok));
    }

    /** It queues a close frame if the session was live and its channel has room. */
    method Close()
      requires Valid() && !view.control.owner.OInit?
      modifies this`state, this`channel, this`sent, this`view
      ensures Valid() && !C.Live(state)
      ensures channel == if C.Live(old(state)) && old(channel).Takes(capacity) then old(channel).Send(CloseFrame) else old(channel)
      ensures !C.Live(old(state)) ==> state == old(state) && view == old(view)
    {
      if state == C.Closed || state == C.Closing {
        return;
      }
      Act(C.CloseGet);
      state := C.Closing;
      Act(C.CloseStore);
      var queued := TrySendClose();
      Act(C.CloseSend(queued));
    }

    /** Anything but a step of the connection loop may happen while the close handler runs. */
    method OthersActOnOwner()
      requires Valid()
      modifies this
      ensures Valid() && view.control.owner == old(view.control.owner)
    {
    }

    method Cleanup()
      requires Valid() && view.control.owner.OServe?
      modifies this
      ensures Valid() && state == C.Closed && view.control.owner.ODone?
    {
      state := C.Closing;
      Act(C.CleanupStart);
      OthersActOnOwner();
      state := C.Closed;
      Act(C.CleanupFinish);
    }
  }

  /** `eventMessages` is the emit channel. `sessions` is not a field of the source: it is the machine's own state of every
      session the loop has created, together with the server connection it reached, and a method that acts on a session
      updates it by the machine's transition function. */
  class WsIoClientRuntime {
    const config: P.Config
    var status: P.Status
    var session: Option<nat>
    var sessions: seq<H.Pair>
    var eventMessages: seq<Message>
    ghost var view: P.State

    ghost predicate Valid()
      reads this
    {
      && G.Reachable(config, view)
      && status == view.epoch.status
      && session == view.epoch.current
      && sessions == view.sessions
      && eventMessages == view.books.channel
    }

    constructor (config: P.Config)
      ensures this.config == config && Valid() && view == P.NEW_STATE
    {
      this.config := config;
      status := P.Stopped;
      session := None;
      sessions := [];
      eventMessages := [];
      view := P.NEW_STATE;
      new;
      G.ReachableInit(config);
    }

    ghost method Act(step: P.Step)
      requires G.Reachable(config, view) && P.Can(config, view, step)
      modifies this`view
      ensures view == P.Do(config, old(view), step) && G.Reachable(config, view)
    {
      G.ReachableStep(config, view, step);
      view := P.Do(config, view, step);
    }

    /** Other tasks act while the holder of `operate_lock` is suspended. */
    method OthersActOnOperation()
      requires Valid()
      modifies this
      ensures Valid() && view.epoch.op == old(view.epoch.op)
    {
    }

    /** It panics, in the `unreachable!` arm, exactly if an earlier `disconnect` was dropped on the way. */
    method Connect() returns (panicked: bool)
      requires Valid() && view.epoch.op.Idle?
      modifies this
      ensures Valid() && view.epoch.op.Idle? && panicked == old(view.epoch.abandoned)
      ensures if panicked then view == old(view) else status == P.Running
    {
      G.OperationHolds(config, view);
      panicked := status == P.Stopping;
      if status == P.Stopped {
        Act(P.ConnectBegin);
        status := P.Running;
        OthersActOnOperation();
        SpawnTasks();
      }
    }

    method SpawnTasks()
      requires Valid() && view.epoch.op.CSpawnLoop?
      modifies this
      ensures Valid() && view.epoch.op.Idle? && status == P.Running
    {
      Act(P.SpawnLoop);
      OthersActOnOperation();
      G.OperationHolds(config, view);
      Act(P.SpawnForwarder);
    }

    /** `disconnect` up to its wait for the connection loop: the forwarder is gone and the channel is drained. */
    method BeginDisconnect() returns (found: bool, panicked: bool)
      requires Valid() && view.epoch.op.Idle?
      modifies this
      ensures Valid()
      ensures found == (old(status) == P.Running) && panicked == old(view.epoch.abandoned)
      ensures !found ==> view == old(view)
      ensures found ==> view.epoch.op.DJoin? && view.epoch.fwd.FNone? && eventMessages == []
    {
      G.OperationHolds(config, view);
      found, panicked := status == P.Running, status == P.Stopping;
      if found {
        Act(P.DisconnectBegin);
        status := P.Stopping;
        OthersActOnOperation();
        Act(P.AbortForwarder);
        AwaitReceiver();
        DrainChannel();
        G.OperationHolds(config, view);
      }
    }

    /** The receiver's lock is free once the aborted forwarder has been dropped. */
    method AwaitReceiver()
      requires Valid() && view.epoch.op.DLockRx?
      modifies this
      ensures Valid() && view.epoch.op.DDrain?
    {
      OthersActOnOperation();
      G.OperationHolds(config, view);
      if !view.epoch.fwd.FNone? {
        Act(P.FwdDrop);
      }
      Act(P.LockRx);
    }

    /** Every message in the channel is dropped, in order. */
    method DrainChannel()
      requires Valid() && view.epoch.op.DDrain?
      modifies this`eventMessages, this`view
      ensures Valid() && view.epoch.op.DJoin? && eventMessages == []
      ensures view.books.dropped == old(view.books.dropped + eventMessages)
    {
      while eventMessages != []
        invariant Valid() && view.epoch.op.DDrain?
        invariant view.books.dropped + eventMessages == old(view.books.dropped + eventMessages)
        decreases |eventMessages|
      {
        DropFirst();
      }
      Act(P.Drained);
    }

    method DropFirst()
      requires Valid() && view.epoch.op.DDrain? && eventMessages != []
      modifies this`eventMessages, this`view
      ensures Valid() && view.epoch.op.DDrain? && eventMessages == old(eventMessages[1..])
      ensures view.books.dropped + eventMessages == old(view.books.dropped + eventMessages)
    {
      G.DrainDoes(config, view);
      assert eventMessages == [eventMessages[0]] + eventMessages[1..];
      Act(P.Drain);
      eventMessages := eventMessages[1..];
    }

    /** The end of `disconnect`, once the connection loop has ended. */
    method FinishDisconnect()
      requires Valid() && P.Can(config, view, P.JoinLoop)
      modifies this`status, this`view
      ensures Valid() && status == P.Stopped && session == None && view.epoch.op.Idle?
      ensures forall i :: 0 <= i < |sessions| ==> G.CleanedUp(sessions[i])
    {
      G.DisconnectLeavesNothing(config, view);
      Act(P.JoinLoop);
      status := P.Stopped;
    }

    method EmitEnsure() returns (ok: bool)
      requires Valid()
      modifies this`view
      ensures Valid() && ok == (status == P.Running)
      ensures view.books.emitting == old(view.books.emitting) + if ok then 1 else 0
    {
      ok := status == P.Running;
      Act(P.EmitEnsure);
    }

    /** The channel accepts the message, once it has room. */
    method EmitSend(m: Message)
      requires Valid() && 0 < view.books.emitting && |eventMessages| < config.capacity
      modifies this`eventMessages, this`view
      ensures Valid() && eventMessages == old(eventMessages) + [m]
      ensures view.books.accepted == old(view.books.accepted) + [m]
    {
      eventMessages := eventMessages + [m];
      Act(P.EmitSend(m));
    }

    /** Other tasks act while the forwarder is suspended, and it is not aborted. None of them queues an event
        (`PipelineGuarantees.OnlySendAppends`). */
    method OthersActOnForwarder()
      requires Valid()
      modifies this
      ensures Valid() && view.epoch.fwd == old(view.epoch.fwd)
      ensures !view.epoch.fwd.FNone? ==> P.ThisEpoch(view) == P.ThisEpoch(old(view))
    {
    }

    /** One attempt of the forwarder: load the session, check it, queue the message, with other tasks acting in between.
        The message is queued last, once, if the attempt succeeds, and not at all otherwise. */
    method Attempt(m: Message, second: bool) returns (sent: bool)
      requires Valid() && view.epoch.fwd == P.FLoad(m, second)
      modifies this
      ensures Valid()
      ensures view.epoch.fwd == if sent then P.FReceive else P.Retry(m, second)
      ensures P.ThisEpoch(view) == P.ThisEpoch(old(view)) + if sent then [m] else []
    {
      var loaded := Load(m, second);
      if loaded.None? {
        return false;
      }
      OthersActOnForwarder();
      var ready := CheckSession(loaded.value);
      if !ready {
        return false;
      }
      AwaitRoom(loaded.value);
      sent := QueueOnSession(loaded.value, m);
    }

    method Load(m: Message, second: bool) returns (loaded: Option<nat>)
      requires Valid() && view.epoch.fwd == P.FLoad(m, second)
      modifies this`view
      ensures Valid() && loaded == session && P.ThisEpoch(view) == P.ThisEpoch(old(view))
      ensures view.epoch.fwd == match loaded case Some(i) => P.FEnsure(m, i, second) case None => P.Retry(m, second)
    {
      loaded := session;
      G.OnlySendAppends(config, view, P.FwdLoad);
      Act(P.FwdLoad);
    }

    /** `ensure(Ready)` on the loaded session. */
    method CheckSession(i: nat) returns (ready: bool)
      requires Valid() && view.epoch.fwd.FEnsure? && view.epoch.fwd.i == i
      modifies this`sessions, this`view
      ensures Valid() && P.ThisEpoch(view) == P.ThisEpoch(old(view))
      ensures var f := old(view).epoch.fwd;
              view.epoch.fwd == if ready then P.FSend(f.m, f.i, f.second) else P.Retry(f.m, f.second)
    {
      G.CheckIsPossible(config, view);
      G.OnlySendAppends(config, view, P.FwdEnsure);
      ready := sessions[i].client.Ready();
      sessions := sessions[i := H.Do(config.session, sessions[i], H.Client(C.EmitEnsure))];
      Act(P.FwdEnsure);
    }

    /** The send waits until the session's channel has room or has lost its receiver. */
    method AwaitRoom(i: nat)
      requires Valid() && view.epoch.fwd.FSend? && view.epoch.fwd.i == i
      modifies this
      ensures Valid() && view.epoch.fwd == old(view.epoch.fwd) && P.ThisEpoch(view) == P.ThisEpoch(old(view))
      ensures P.Can(config, view, P.FwdSend)
    {
      OthersActOnForwarder();
      G.SendWaitsForRoom(config, view);
      while !sessions[i].up.Accepts(config.session.clientCapacity)
        invariant Valid() && view.epoch.fwd == old(view.epoch.fwd) && P.ThisEpoch(view) == P.ThisEpoch(old(view))
        invariant i < |sessions|
        invariant P.Can(config, view, P.FwdSend) <==> sessions[i].up.Accepts(config.session.clientCapacity)
        decreases sessions[i].up.waiting
      {
        WriteOne(i);
        G.SendWaitsForRoom(config, view);
      }
    }

    /** The session's write task takes a packet from its channel. */
    method WriteOne(i: nat)
      requires Valid() && !view.epoch.fwd.FNone? && i < |sessions| && 0 < sessions[i].up.waiting
      modifies this`sessions, this`view
      ensures Valid() && view.epoch.fwd == old(view.epoch.fwd) && P.ThisEpoch(view) == P.ThisEpoch(old(view))
      ensures i < |sessions| && sessions[i].up == old(sessions[i].up).Write()
    {
      G.WriterDoes(config, view, i, H.WriteUp);
      G.OnlySendAppends(config, view, P.Session(i, H.WriteUp));
      sessions := sessions[i := H.Do(config.session, sessions[i], H.WriteUp)];
      Act(P.Session(i, H.WriteUp));
    }

    method QueueOnSession(i: nat, m: Message) returns (sent: bool)
      requires Valid() && view.epoch.fwd.FSend? && view.epoch.fwd.i == i && view.epoch.fwd.m == m
      requires P.Can(config, view, P.FwdSend)
      modifies this`sessions, this`view
      ensures Valid()
      ensures var f := old(view).epoch.fwd;
              && view.epoch.fwd == (if sent then P.FReceive else P.Retry(f.m, f.second))
              && P.ThisEpoch(view) == P.ThisEpoch(old(view)) + if sent then [m] else []
    {
      G.SendAppends(config, view);
      sent := sessions[i].up.open;
      sessions := sessions[i := H.Do(config.session, sessions[i], H.Client(C.EmitSend(m, sent)))];
      Act(P.FwdSend);
    }

    /** One turn of the forwarder's outer loop up to the wait: the oldest message is taken from the channel and tried
        twice, with the `Notified` created in between; it is queued on a session or the forwarder parks with it. */
    method ForwardNext() returns (m: Message, sent: bool)
      requires Valid() && view.epoch.fwd.FReceive? && eventMessages != []
      modifies this
      ensures Valid() && m == old(eventMessages[0])
      ensures view.epoch.fwd == if sent then P.FReceive else P.FParked(m)
      ensures P.ThisEpoch(view) == P.ThisEpoch(old(view)) + if sent then [m] else []
    {
      m, sent := TryFirst();
      if !sent {
        ghost var before := P.ThisEpoch(view);
        assert before == P.ThisEpoch(old(view));
        sent := TrySecond(m);
      }
    }

    method TryFirst() returns (m: Message, sent: bool)
      requires Valid() && view.epoch.fwd.FReceive? && eventMessages != []
      modifies this
      ensures Valid() && m == old(eventMessages[0])
      ensures view.epoch.fwd == if sent then P.FReceive else P.FSubscribe(m)
      ensures P.ThisEpoch(view) == P.ThisEpoch(old(view)) + if sent then [m] else []
    {
      m := Receive();
      OthersActOnForwarder();
      sent := Attempt(m, false);
    }

    method TrySecond(m: Message) returns (sent: bool)
      requires Valid() && view.epoch.fwd == P.FSubscribe(m)
      modifies this
      ensures Valid() && view.epoch.fwd == if sent then P.FReceive else P.FParked(m)
      ensures P.ThisEpoch(view) == P.ThisEpoch(old(view)) + if sent then [m] else []
    {
      OthersActOnForwarder();
      Subscribe(m);
      OthersActOnForwarder();
      sent := Attempt(m, true);
    }

    method Receive() returns (m: Message)
      requires Valid() && view.epoch.fwd.FReceive? && eventMessages != []
      modifies this`eventMessages, this`view
      ensures Valid() && view.epoch.fwd == P.FLoad(m, false)
      ensures m == old(eventMessages[0]) && eventMessages == old(eventMessages[1..]) && P.ThisEpoch(view) == P.ThisEpoch(old(view))
    {
      m := eventMessages[0];
      G.OnlySendAppends(config, view, P.FwdReceive);
      Act(P.FwdReceive);
      eventMessages := eventMessages[1..];
    }

    ghost method Subscribe(m: Message)
      requires Valid() && view.epoch.fwd == P.FSubscribe(m)
      modifies this`view
      ensures Valid() && view.epoch.fwd == P.FLoad(m, true) && !view.epoch.woken
      ensures P.ThisEpoch(view) == P.ThisEpoch(old(view))
    {
      G.OnlySendAppends(config, view, P.FwdSubscribe);
      Act(P.FwdSubscribe);
    }

    /** Other tasks act while the connection loop is suspended. */
    method OthersActOnLoop()
      requires Valid()
      modifies this
      ensures Valid() && view.epoch.loop == old(view.epoch.loop)
    {
    }

    /** `run_connection`. Whether it connected or not, it leaves no current session and every session cleaned up. */
    method RunConnection(connected: bool)
      requires Valid() && view.epoch.loop.LConnect?
      modifies this
      ensures Valid() && view.epoch.loop.LAfter? && session == None
      ensures forall i :: 0 <= i < |sessions| ==> G.CleanedUp(sessions[i])
    {
      var i := |sessions|;
      TryToConnect(connected);
      if connected {
        OpenSession(i);
        AwaitOver(i);
        EndSession(i);
      }
      G.BetweenConnections(config, view);
    }

    method TryToConnect(connected: bool)
      requires Valid() && view.epoch.loop.LConnect?
      modifies this`sessions, this`view
      ensures Valid() && view.epoch.loop == if connected then P.LInit(|old(sessions)|) else P.LAfter
    {
      Act(P.LoopConnect(connected));
      if connected {
        sessions := sessions + [H.NEW_PAIR];
      }
    }

    /** `init`, then the read task is spawned and the session published in one stretch. */
    method OpenSession(i: nat)
      requires Valid() && view.epoch.loop == P.LInit(i)
      modifies this
      ensures Valid() && view.epoch.loop == P.LServe(i) && session == Some(i)
    {
      Drive(i, G.StartInit);
      OthersActOnLoop();
      Drive(i, G.Publish);
    }

    /** Nothing is current any more before `cleanup` begins. */
    method EndSession(i: nat)
      requires Valid() && view.epoch.loop == P.LServe(i) && i < |sessions| && P.Over(sessions[i])
      modifies this
      ensures Valid() && view.epoch.loop.LAfter?
    {
      StopTasks(i);
      OthersActOnLoop();
      Unpublish(i);
      CleanUp(i);
    }

    method CleanUp(i: nat)
      requires Valid() && view.epoch.loop == P.LCleanup(i)
      modifies this
      ensures Valid() && view.epoch.loop.LAfter?
    {
      Drive(i, G.StartCleanup);
      OthersActOnLoop();
      Drive(i, G.FinishCleanup);
    }

    method StopTasks(i: nat)
      requires Valid() && view.epoch.loop == P.LServe(i) && i < |sessions| && P.Over(sessions[i])
      modifies this`session, this`sessions, this`view
      ensures Valid() && view.epoch.loop == P.LUnpublish(i)
    {
      Drive(i, G.AbortRead);
      Drive(i, G.CloseWriter);
    }

    method Unpublish(i: nat)
      requires Valid() && view.epoch.loop == P.LUnpublish(i)
      modifies this`session, this`view
      ensures Valid() && view.epoch.loop == P.LCleanup(i) && session == None
    {
      Act(P.LoopUnpublish);
      session := None;
    }

    /** One step of the loop on its session. */
    method Drive(i: nat, d: G.Drive)
      requires Valid() && view.epoch.loop == d.From(i)
      requires d.AbortRead? ==> i < |sessions| && P.Over(sessions[i])
      modifies this`session, this`sessions, this`view
      ensures Valid() && view.epoch.loop == d.To(i)
      ensures session == if d.Publish? then Some(i) else old(session)
      ensures i < |old(sessions)| && H.Can(config.session, old(sessions[i]), d.OnSession())
      ensures sessions == old(sessions)[i := H.Do(config.session, old(sessions[i]), d.OnSession())]
    {
      G.LoopCanDrive(config, view, i, d);
      G.DriveDoes(config, view, i, d);
      sessions := sessions[i := H.Do(config.session, sessions[i], d.OnSession())];
      if d.Publish? {
        session := Some(i);
      }
      Act(d.Step());
    }

    /** The wait of `run_connection`: it ends when the session is over. */
    method AwaitOver(i: nat)
      requires Valid() && view.epoch.loop == P.LServe(i)
      modifies this
      ensures Valid() && view.epoch.loop == P.LServe(i) && i < |sessions| && P.Over(sessions[i])
    {
      OthersActOnLoop();
      G.OperationHolds(config, view);
      if !P.Over(sessions[i]) {
        EndWriteTask(i);
      }
    }

    method EndWriteTask(i: nat)
      requires Valid() && i < |sessions|
      modifies this`sessions, this`view
      ensures Valid() && view.epoch == old(view.epoch)
      ensures i < |sessions| && P.Over(sessions[i])
    {
      G.WriterDoes(config, view, i, H.CloseUp);
      sessions := sessions[i := H.Do(config.session, sessions[i], H.CloseUp)];
      Act(P.Session(i, H.CloseUp));
    }
  }
}
