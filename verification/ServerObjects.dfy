/** The server's objects as the source updates them: the runtime, its namespaces and their connections.
    A connection carries the state of its machine as a ghost `view`, and every method performs, statement by statement,
    actions of that machine; wherever the source awaits, other tasks may act in between. `sent` is history: the packets
    the connection has queued, which its machine must agree with. */
module ServerObjects {
  import opened Packets
  import opened Rooms
  import opened Broadcast
  import S = ServerConnection
  import N = NamespaceShutdown

  /** What `close` does to a channel. */
  function Closing(state: S.ConnectionState, channel: Link, capacity: Capacity): Link
  {
    if S.Live(state) && channel.Takes(capacity) then channel.Send(CloseFrame) else channel
  }

  class WsIoServerRuntime {
    var connectionIds: set<Id>

    constructor ()
      ensures connectionIds == {}
    {
      connectionIds := {};
    }

    method InsertConnectionId(id: Id)
      modifies this
      ensures connectionIds == old(connectionIds) + {id}
    {
      connectionIds := connectionIds + {id};
    }

    method RemoveConnectionId(id: Id)
      modifies this
      ensures connectionIds == old(connectionIds) - {id}
    {
      connectionIds := connectionIds - {id};
    }
  }

  class WsIoServerNamespace {
    const config: S.Config
    const runtime: WsIoServerRuntime
    var status: N.Status
    var connections: map<Id, WsIoServerConnection>
    var connectionIds: set<Id>
    var rooms: RoomMap

    constructor (config: S.Config, runtime: WsIoServerRuntime)
      ensures this.config == config && this.runtime == runtime
      ensures status == N.Running && connections == map[] && connectionIds == {} && rooms == map[]
    {
      this.config := config;
      this.runtime := runtime;
      status := N.Running;
      connections := map[];
      connectionIds := {};
      rooms := map[];
    }

    method InsertConnection(connection: WsIoServerConnection)
      modifies this`connections, this`connectionIds, runtime
      ensures connections == old(connections)[connection.id := connection]
      ensures runtime.connectionIds == old(runtime.connectionIds) + {connection.id}
      ensures connectionIds == old(connectionIds) + {connection.id}
    {
      connections := connections[connection.id := connection];
      runtime.InsertConnectionId(connection.id);
      connectionIds := connectionIds + {connection.id};
    }

    method RemoveConnection(id: Id)
      modifies this`connections, this`connectionIds, runtime
      ensures connections == old(connections) - {id}
      ensures runtime.connectionIds == old(runtime.connectionIds) - {id}
      ensures connectionIds == old(connectionIds) - {id}
    {
      connections := connections - {id};
      runtime.RemoveConnectionId(id);
      connectionIds := connectionIds - {id};
    }

    method AddConnectionIdToRoom(roomName: Room, id: Id)
      modifies this`rooms
      ensures rooms == Add(old(rooms), roomName, id)
    {
      if roomName !in rooms {
        rooms := rooms[roomName := {}];
      }
      rooms := rooms[roomName := rooms[roomName] + {id}];
    }

    method RemoveConnectionIdFromRoom(roomName: Room, id: Id)
      modifies this`rooms
      ensures rooms == Prune(RemoveId(old(rooms), roomName, id), roomName)
    {
      if roomName in rooms {
        rooms := rooms[roomName := rooms[roomName] - {id}];
      }
      if roomName in rooms && rooms[roomName] == {} {
        rooms := rooms - {roomName};
      }
    }
  }

  class WsIoServerConnection {
    const id: Id
    const namespace: WsIoServerNamespace
    const capacity: Capacity
    var state: S.ConnectionState
    var joinedRooms: set<Room>
    var channel: Link
    ghost var sent: seq<Packet>
    ghost var view: S.Connection

    ghost predicate Valid()
      reads this, namespace, namespace.runtime
    {
      && view.Inv(namespace.config)
      && state == view.control.state
      && (view.traffic.initSent <==> InitPacket in sent)
      && (view.traffic.readySent <==> ReadyPacket in sent)
      && !view.control.read.RInsert?
      && (view.control.CleaningUp() ==> S.Removing(view))
      && (view.index.connections <==> id in namespace.connections)
      && (view.index.runtimeIds <==> id in namespace.runtime.connectionIds)
      && (view.index.namespaceIds <==> id in namespace.connectionIds)
    }

    constructor (id: Id, namespace: WsIoServerNamespace, capacity: Capacity)
      requires id !in namespace.connections && id !in namespace.runtime.connectionIds && id !in namespace.connectionIds
      ensures this.id == id && this.namespace == namespace && this.capacity == capacity
      ensures Valid() && view == S.NEW_CONNECTION && joinedRooms == {} && channel == FRESH_LINK && sent == []
    {
      this.id := id;
      this.namespace := namespace;
      this.capacity := capacity;
      state := S.Created;
      joinedRooms := {};
      channel := FRESH_LINK;
      sent := [];
      view := S.NEW_CONNECTION;
      new;
      S.InvInit(namespace.config);
    }

    ghost method Act(a: S.Action)
      requires view.Inv(namespace.config) && view.Can(a)
      modifies this`view
      ensures view == old(view).Do(namespace.config, a) && view.Inv(namespace.config)
    {
      S.InvStep(namespace.config, view, a);
      view := view.Do(namespace.config, a);
    }

    /** An action that touches only what is pending: control, log, indexes and traffic stay. */
    ghost method ActAside(a: S.Action)
      requires view.Inv(namespace.config) && view.Can(a)
      requires a.CloseGet? || a.CloseSend? || a.EmitEnsure? || a.EmitSend? || a.SendDisconnect?
      modifies this`view
      ensures view.Inv(namespace.config)
      ensures view.control == old(view.control) && view.index == old(view.index) && view.traffic == old(view.traffic)
      ensures view.pending == S.PendingStep(old(view.control), old(view.pending), a)
    {
      Act(a);
    }

    /** A step of the setup, which touches only control and log. */
    ghost method ActSetup(a: S.Action)
      requires view.Inv(namespace.config) && view.Can(a)
      requires a.HandlerStart? || a.HandlerDone? || a.ActivateCas? || a.EnsureActivating?
      modifies this`view
      ensures view.Inv(namespace.config) && view.control == S.Step(namespace.config, old(view.control), a)
      ensures view.index == old(view.index) && view.traffic == old(view.traffic)
    {
      Act(a);
    }

    /** The three insertions of `insert_connection`. */
    ghost method ActInserts()
      requires view.Inv(namespace.config) && view.control.read == S.RInsert(0)
      modifies this`view
      ensures view.Inv(namespace.config)
      ensures view.control == old(view.control).(read := S.RSendReady) && view.index == S.Indexes(true, true, true)
      ensures view.traffic == old(view.traffic)
    {
      Act(S.Insert);
      Act(S.Insert);
      Act(S.Insert);
    }

    /** The three removals of `remove_connection`. */
    ghost method ActRemoves()
      requires view.Inv(namespace.config) && view.control.main == S.MRemove(0)
      modifies this`view
      ensures view.Inv(namespace.config)
      ensures view.control == old(view.control).(main := S.MFinish) && view.index == S.NOT_INDEXED
      ensures view.traffic == old(view.traffic)
    {
      Act(S.Remove);
      Act(S.Remove);
      Act(S.Remove);
    }

    /** The other tasks act while the read task is suspended: anything but a step of the read task. */
    method OthersAct()
      requires Valid()
      modifies this, namespace, namespace.runtime
      ensures Valid()
      ensures view.control.read == old(view.control.read)
    {
    }

    /** The other tasks act while the main task is suspended. */
    method OthersActOnMain()
      requires Valid()
      modifies this, namespace, namespace.runtime
      ensures Valid()
      ensures view.control.main == old(view.control.main)
    {
    }

    /** While a send waits, the write task takes packets from the channel. */
    method AwaitRoom()
      modifies this`channel
      ensures channel.Accepts(capacity) && channel.waiting <= old(channel.waiting)
      ensures channel.queue == old(channel.queue) && channel.open == old(channel.open) && channel.cut == old(channel.cut)
    {
      while !channel.Accepts(capacity)
        invariant channel.waiting <= old(channel.waiting)
        invariant channel.queue == old(channel.queue) && channel.open == old(channel.open) && channel.cut == old(channel.cut)
        decreases channel.waiting
      {
        channel := channel.Write();
      }
    }

    /** `send`: it waits for room. */
    method Send(packet: Packet) returns (ok: bool)
      modifies this`channel, this`sent
      ensures ok == old(channel).open && channel.queue == old(channel).Send(packet).queue
      ensures sent == old(sent) + if ok then [packet] else []
      ensures InitPacket in sent <==> InitPacket in old(sent) || (ok && packet == InitPacket)
      ensures ReadyPacket in sent <==> ReadyPacket in old(sent) || (ok && packet == ReadyPacket)
    {
      AwaitRoom();
      ok := channel.open;
      channel := channel.Send(packet);
      if ok {
        sent := sent + [packet];
      }
    }

    /** `try_send` of a close frame: it does not wait. */
    method TrySendClose() returns (queued: bool)
      modifies this`channel, this`sent
      ensures queued == old(channel).Takes(capacity)
      ensures channel == if queued then old(channel).Send(CloseFrame) else old(channel)
      ensures sent == old(sent) + if queued then [CloseFrame] else []
    {
      queued := channel.Takes(capacity);
      if queued {
        channel := channel.Send(CloseFrame);
        sent := sent + [CloseFrame];
      }
    }

    /** `handle_init_packet`; the arguments say what the configured handlers return (or that they time out).
        It returns Ok exactly when it has gone all the way: every configured setup handler returned Ok,
        the connection became Ready and the Ready packet was queued. */
    method HandleInitPacket(responseOk: bool, middlewareOk: bool, connectOk: bool) returns (ok: bool)
      requires Valid() && view.control.read.RWait?
      modifies this, namespace, namespace.runtime
      ensures Valid()
      ensures if ok then view.control.read.RWait? && ReadyPacket in sent else view.control.read.REnded?
      ensures ok ==> S.Ready in view.control.entered && view.log == S.Upto(namespace.config, 4)
    {
      ok := AcceptInit();
      if !ok {
        return;
      }
      OthersAct();
      ok := Respond(responseOk);
      if !ok {
        return;
      }
      ok := RunMiddleware(middlewareOk);
      if !ok {
        return;
      }
      ok := RunOnConnect(connectOk);
      if !ok {
        return;
      }
      ok := BecomeReady();
      if !ok {
        return;
      }
      OthersAct();
      ok := Announce();
    }

    method Announce() returns (ok: bool)
      requires Valid() && view.control.read.RSendReady?
      modifies this
      ensures Valid()
      ensures if ok then view.control.read.RWait? && ReadyPacket in sent else view.control.read.REnded?
      ensures S.Ready in view.control.entered && view.log == S.Upto(namespace.config, 4)
      ensures ok == old(channel).open && channel.queue == old(channel).Send(ReadyPacket).queue
    {
      ok := Send(ReadyPacket);
      Act(S.SendReady(ok));
      S.ReadyIsFifth(view.control);
    }

    /** From the read of the state to the transition out of AwaitingInit. */
    method AcceptInit() returns (ok: bool)
      requires Valid() && view.control.read.RWait?
      modifies this, namespace, namespace.runtime
      ensures Valid()
      ensures view.control.read == if ok then S.RBefore(S.InitResponse) else S.REnded
      ensures ok ==> state == S.Initiating
    {
      var seen := state;
      Act(S.Receive(InitPacket));
      if seen != S.AwaitingInit {
        return false;
      }
      OthersAct();
      ok := state == S.AwaitingInit;
      Act(S.InitPacketCas);
      if ok {
        state := S.Initiating;
      }
    }

    /** A configured handler runs, and may fail or time out; one that is not configured is skipped. */
    method RunHandler(h: S.Handler, handlerOk: bool) returns (ok: bool)
      requires Valid() && view.control.read == S.RBefore(h)
      modifies this, namespace, namespace.runtime
      ensures Valid() && ok == (namespace.config.Has(h) ==> handlerOk)
      ensures view.control.read == if !ok then S.REnded
                                   else if h == S.Middleware && !namespace.config.Has(h) then S.RBefore(S.OnConnect)
                                   else S.After(h)
    {
      ActSetup(S.HandlerStart);
      ok := true;
      if namespace.config.Has(h) {
        OthersAct();
        FinishHandler(h, handlerOk);
        ok := handlerOk;
      }
    }

    ghost method FinishHandler(h: S.Handler, handlerOk: bool)
      requires Valid() && view.control.read == S.RRunning(h)
      modifies this`view
      ensures Valid() && view.control.read == if handlerOk then S.After(h) else S.REnded
    {
      ActSetup(S.HandlerDone(handlerOk));
    }

    method Respond(responseOk: bool) returns (ok: bool)
      requires Valid() && view.control.read == S.RBefore(S.InitResponse)
      modifies this, namespace, namespace.runtime
      ensures Valid()
      ensures view.control.read == if ok then S.RBefore(S.Middleware) else S.REnded
      ensures ok ==> state == S.Activating
    {
      ok := RunHandler(S.InitResponse, responseOk);
      if !ok {
        return;
      }
      ok := state == S.Initiating;
      ActSetup(S.ActivateCas);
      if ok {
        state := S.Activating;
      }
    }

    method RunMiddleware(middlewareOk: bool) returns (ok: bool)
      requires Valid() && view.control.read == S.RBefore(S.Middleware)
      modifies this, namespace, namespace.runtime
      ensures Valid()
      ensures view.control.read == if ok then S.RBefore(S.OnConnect) else S.REnded
      ensures ok && namespace.config.middleware ==> state == S.Activating
    {
      ok := RunHandler(S.Middleware, middlewareOk);
      if ok && namespace.config.middleware {
        ok := state == S.Activating;
        ActSetup(S.EnsureActivating);
      }
    }

    method RunOnConnect(connectOk: bool) returns (ok: bool)
      requires Valid() && view.control.read == S.RBefore(S.OnConnect)
      modifies this, namespace, namespace.runtime
      ensures Valid()
      ensures view.control.read == if ok then S.RReady else S.REnded
    {
      ok := RunHandler(S.OnConnect, connectOk);
    }

    /** The transition to Ready and the insertion behind it: one stretch without an await. */
    method BecomeReady() returns (ok: bool)
      requires Valid() && view.control.read.RReady?
      modifies this, namespace, namespace.runtime
      ensures Valid()
      ensures ok == (old(state) == S.Activating)
      ensures view.control.read == if ok then S.RSendReady else S.REnded
      ensures ok ==> state == S.Ready && id in namespace.connections && namespace.connections[id] == this
      ensures ok ==> namespace.connections.Keys == old(namespace.connections.Keys) + {id}
      ensures ok ==> namespace.connectionIds == old(namespace.connectionIds) + {id}
      ensures ok ==> namespace.runtime.connectionIds == old(namespace.runtime.connectionIds) + {id}
      ensures unchanged(namespace`rooms) && joinedRooms == old(joinedRooms) && channel == old(channel)
    {
      ok := state == S.Activating;
      Act(S.ReadyCas);
      if ok {
        state := S.Ready;
        namespace.InsertConnection(this);
        ActInserts();
      }
    }

    /** `init`; the argument says what the configured init-request handler returns. */
    method Init(requestOk: bool) returns (ok: bool)
      requires Valid() && view.control.main.MEnsure?
      modifies this, namespace, namespace.runtime
      ensures Valid()
      ensures view.control.main == if ok then S.MServe else S.MFailed
      ensures ok ==> InitPacket in sent && S.AwaitingInit in view.control.entered
    {
      ok := BeginInit(requestOk);
      if !ok {
        return;
      }
      OthersActOnMain();
      ok := Send(InitPacket);
      Act(S.SendInit(ok));
      assert view.control.entered[1] == S.HANDSHAKE[1];
    }

    method BeginInit(requestOk: bool) returns (ok: bool)
      requires Valid() && view.control.main.MEnsure?
      modifies this, namespace, namespace.runtime
      ensures Valid()
      ensures view.control.main == if ok then S.MSendInit else S.MFailed
    {
      ok := state == S.Created;
      Act(S.InitEnsure);
      if !ok {
        return;
      }
      Act(S.InitRequestStart);
      if namespace.config.initRequest {
        OthersActOnMain();
        Act(S.InitRequestDone(requestOk));
        if !requestOk {
          return false;
        }
      }
      ok := state == S.Created;
      Act(S.InitCas);
      if ok {
        state := S.AwaitingInit;
      }
    }

    /** `close`, as one stretch; that its read and its store can be separated is covered by the machine. */
    method Close()
      requires Valid()
      modifies this`state, this`channel, this`sent, this`view
      ensures Valid() && !S.Live(state) && channel == Closing(old(state), old(channel), capacity)
      ensures !S.Live(old(state)) ==> state == old(state) && view == old(view)
      ensures view.control.main == old(view.control.main) && view.control.read == old(view.control.read)
    {
      if state == S.Closed || state == S.Closing {
        return;
      }
      ActAside(S.CloseGet);
      state := S.Closing;
      Act(S.CloseStore);
      var queued := TrySendClose();
      ActAside(S.CloseSend(queued));
    }

    /** `emit_event_message`: the check and the sending are two steps, with an await in between. */
    method EmitEventMessage(m: Message) returns (ok: bool)
      requires Valid()
      modifies this`channel, this`sent, this`view
      ensures Valid()
      ensures ok == (state == S.Ready && old(channel).open)
      ensures channel.queue == if state == S.Ready then old(channel).Send(EventPacket(m)).queue else old(channel.queue)
    {
      ActAside(S.EmitEnsure);
      if state != S.Ready {
        return false;
      }
      ok := QueueEvent(m);
    }

    method QueueEvent(m: Message) returns (ok: bool)
      requires Valid() && 0 < view.pending.emitting
      modifies this`channel, this`sent, this`view
      ensures Valid() && ok == old(channel).open && channel.queue == old(channel).Send(EventPacket(m)).queue
    {
      ok := Send(EventPacket(m));
      ActAside(S.EmitSend(m));
    }

    /** The disconnect packet of a broadcast: it is queued whatever the state. */
    method SendDisconnect() returns (ok: bool)
      requires Valid()
      modifies this`channel, this`sent, this`view
      ensures Valid() && ok == old(channel).open && channel.queue == old(channel).Send(DisconnectPacket).queue
    {
      ok := Send(DisconnectPacket);
      ActAside(S.SendDisconnect);
    }

    /** An event packet is dispatched only to a connection that is Ready. */
    method HandleEventPacket(m: Message) returns (dispatched: bool)
      requires Valid() && view.control.read.RWait?
      modifies this`view
      ensures Valid() && view.control.read.RWait?
      ensures dispatched == (state == S.Ready)
      ensures view.traffic.dispatched == old(view.traffic.dispatched) + if dispatched then [m] else []
    {
      dispatched := state == S.Ready;
      Act(S.Receive(EventPacket(m)));
    }

    /** `to` and `except`: an operator that already excludes the connection itself. */
    method To(roomNames: set<Room>) returns (operator: WsIoServerNamespaceBroadcastOperator)
      ensures fresh(operator) && operator.namespace == namespace
      ensures operator.Selected() == Selection(roomNames, {}, {id}) && id !in operator.Reached()
    {
      operator := new WsIoServerNamespaceBroadcastOperator(namespace);
      operator.To(roomNames);
      operator.ExceptConnectionIds({id});
    }

    method Except(roomNames: set<Room>) returns (operator: WsIoServerNamespaceBroadcastOperator)
      ensures fresh(operator) && operator.namespace == namespace
      ensures operator.Selected() == Selection({}, roomNames, {id}) && id !in operator.Reached()
    {
      operator := new WsIoServerNamespaceBroadcastOperator(namespace);
      operator.Except(roomNames);
      operator.ExceptConnectionIds({id});
    }

    method Join(roomNames: seq<Room>)
      modifies this`joinedRooms, namespace`rooms
      ensures namespace.rooms == AddAll(old(namespace.rooms), roomNames, id)
      ensures joinedRooms == old(joinedRooms) + set r | r in roomNames
    {
      for i := 0 to |roomNames|
        invariant namespace.rooms == AddAll(old(namespace.rooms), roomNames[..i], id)
        invariant joinedRooms == old(joinedRooms) + set r | r in roomNames[..i]
      {
        namespace.AddConnectionIdToRoom(roomNames[i], id);
        joinedRooms := joinedRooms + {roomNames[i]};
        assert roomNames[..i + 1][..i] == roomNames[..i];
      }
      assert roomNames[..|roomNames|] == roomNames;
    }

    method Leave(roomNames: seq<Room>)
      modifies this`joinedRooms, namespace`rooms
      ensures namespace.rooms == RemoveAll(old(namespace.rooms), roomNames, id)
      ensures joinedRooms == old(joinedRooms) - set r | r in roomNames
    {
      for i := 0 to |roomNames|
        invariant namespace.rooms == RemoveAll(old(namespace.rooms), roomNames[..i], id)
        invariant joinedRooms == old(joinedRooms) - set r | r in roomNames[..i]
      {
        namespace.RemoveConnectionIdFromRoom(roomNames[i], id);
        joinedRooms := joinedRooms - {roomNames[i]};
        assert roomNames[..i + 1][..i] == roomNames[..i];
      }
      assert roomNames[..|roomNames|] == roomNames;
    }

    /** After a failed `init` the read task has been joined. */
    ghost predicate MayCleanUp()
      reads this
    {
      view.control.main.MServe? || (view.control.main.MFailed? && view.control.read.REnded?)
    }

    /** The first stretch of `cleanup`, up to its first await: the connection is out of every index and of every room
        it had joined, whatever order the snapshot of its rooms comes in, and no one else is touched. */
    method LeaveEverything()
      requires Valid() && MayCleanUp()
      modifies this, namespace, namespace.runtime
      ensures Valid() && state == S.Closing && view.control.main.MFinish?
      ensures namespace.connections == old(namespace.connections) - {id}
      ensures namespace.connectionIds == old(namespace.connectionIds) - {id}
      ensures namespace.runtime.connectionIds == old(namespace.runtime.connectionIds) - {id}
      ensures forall r, c :: In(namespace.rooms, r, c) <==>
                In(old(namespace.rooms), r, c) && !(c == id && r in old(joinedRooms))
      ensures NoEmptyRoom(old(namespace.rooms)) ==> NoEmptyRoom(namespace.rooms)
      ensures joinedRooms == {}
    {
      LeaveIndexes();
      LeaveRooms();
    }

    method LeaveIndexes()
      requires Valid() && MayCleanUp()
      modifies this`state, this`view, namespace`connections, namespace`connectionIds, namespace.runtime
      ensures Valid() && state == S.Closing && view.control.main.MFinish?
      ensures namespace.connections == old(namespace.connections) - {id}
      ensures namespace.connectionIds == old(namespace.connectionIds) - {id}
      ensures namespace.runtime.connectionIds == old(namespace.runtime.connectionIds) - {id}
    {
      state := S.Closing;
      Act(S.CleanupStart);
      namespace.RemoveConnection(id);
      ActRemoves();
    }

    method LeaveRooms()
      modifies this`joinedRooms, namespace`rooms
      ensures forall r, c :: In(namespace.rooms, r, c) <==>
                In(old(namespace.rooms), r, c) && !(c == id && r in old(joinedRooms))
      ensures NoEmptyRoom(old(namespace.rooms)) ==> NoEmptyRoom(namespace.rooms)
      ensures joinedRooms == {}
    {
      var todo := joinedRooms;
      while todo != {}
        invariant todo <= joinedRooms == old(joinedRooms)
        invariant forall r, c :: In(namespace.rooms, r, c) <==>
                    In(old(namespace.rooms), r, c) && !(c == id && r in joinedRooms - todo)
        invariant NoEmptyRoom(old(namespace.rooms)) ==> NoEmptyRoom(namespace.rooms)
      {
        var roomName :| roomName in todo;
        todo := todo - {roomName};
        RemoveIn(namespace.rooms, roomName, id);
        namespace.RemoveConnectionIdFromRoom(roomName, id);
      }
      joinedRooms := {};
    }

    /** `handle_upgraded_request` from `init` on: however `init` ends, the connection is cleaned up and in no index. */
    method Serve(requestOk: bool)
      requires Valid() && view.control.main.MEnsure?
      modifies this, namespace, namespace.runtime
      ensures Valid() && state == S.Closed && view.control.main.MDone?
      ensures id !in namespace.connections && id !in namespace.connectionIds && id !in namespace.runtime.connectionIds
    {
      var ok := Init(requestOk);
      if ok {
        OthersActOnMain();
      } else {
        Close();
        JoinReadTask();
      }
      Cleanup();
    }

    /** The aborted read task ends at its next await. */
    method JoinReadTask()
      requires Valid() && view.control.main.MFailed?
      modifies this, namespace, namespace.runtime
      ensures Valid() && view.control.main.MFailed? && view.control.read.REnded?
    {
      OthersActOnMain();
      if !view.control.read.REnded? {
        Act(S.EndRead);
      }
    }

    /** `cleanup`; while the close handler runs, other tasks may act. */
    method Cleanup()
      requires Valid() && MayCleanUp()
      modifies this, namespace, namespace.runtime
      ensures Valid() && state == S.Closed && view.control.main.MDone?
      ensures id !in namespace.connections && id !in namespace.connectionIds && id !in namespace.runtime.connectionIds
    {
      LeaveEverything();
      OthersActOnMain();
      state := S.Closed;
      Act(S.CleanupFinish);
    }
  }

  class WsIoServerNamespaceBroadcastOperator {
    const namespace: WsIoServerNamespace
    var excludeConnectionIds: set<Id>
    var excludeRooms: set<Room>
    var includeRooms: set<Room>

    constructor (namespace: WsIoServerNamespace)
      ensures this.namespace == namespace
      ensures Selected() == EVERYONE
    {
      this.namespace := namespace;
      excludeConnectionIds, excludeRooms, includeRooms := {}, {}, {};
    }

    ghost function Selected(): Selection
      reads this
    {
      Selection(includeRooms, excludeRooms, excludeConnectionIds)
    }

    method To(roomNames: set<Room>)
      modifies this`includeRooms
      ensures Selected() == Apply(old(Selected()), Builder.To(roomNames))
    {
      includeRooms := includeRooms + roomNames;
    }

    method Except(roomNames: set<Room>)
      modifies this`excludeRooms
      ensures Selected() == Apply(old(Selected()), Builder.Except(roomNames))
    {
      excludeRooms := excludeRooms + roomNames;
    }

    method ExceptConnectionIds(ids: set<Id>)
      modifies this`excludeConnectionIds
      ensures Selected() == Apply(old(Selected()), Builder.ExceptConnectionIds(ids))
    {
      excludeConnectionIds := excludeConnectionIds + ids;
    }

    ghost function Reached(): set<Id>
      reads this, namespace
    {
      Targets(namespace.connectionIds, namespace.rooms, Selected())
    }

    /** The set loops of `for_each_target_connections`, for every order in which the sets are gone through;
        the second loop stops early once nothing is left. */
    method TargetConnectionIds() returns (targets: set<Id>)
      ensures targets == Reached()
    {
      targets := IncludedConnectionIds();
      ghost var included := targets;
      var todo := excludeRooms;
      while todo != {}
        invariant todo <= excludeRooms
        invariant targets == included - Members(namespace.rooms, excludeRooms - todo)
      {
        var roomName :| roomName in todo;
        MembersAdd(namespace.rooms, excludeRooms - todo, roomName);
        todo := todo - {roomName};
        assert excludeRooms - todo == excludeRooms - (todo + {roomName}) + {roomName};
        if roomName in namespace.rooms {
          targets := targets - namespace.rooms[roomName];
          if targets == {} {
            MembersMonotone(namespace.rooms, excludeRooms - todo, excludeRooms);
            todo := {};
            break;
          }
        }
      }
      assert targets == included - Members(namespace.rooms, excludeRooms);
      targets := RemoveExcluded(targets);
    }

    method IncludedConnectionIds() returns (targets: set<Id>)
      ensures targets == if includeRooms == {} then namespace.connectionIds else Members(namespace.rooms, includeRooms)
    {
      if includeRooms == {} {
        return namespace.connectionIds;
      }
      targets := {};
      var todo := includeRooms;
      while todo != {}
        invariant todo <= includeRooms
        invariant targets == Members(namespace.rooms, includeRooms - todo)
      {
        var roomName :| roomName in todo;
        MembersAdd(namespace.rooms, includeRooms - todo, roomName);
        todo := todo - {roomName};
        assert includeRooms - todo == includeRooms - (todo + {roomName}) + {roomName};
        if roomName in namespace.rooms {
          targets := targets + namespace.rooms[roomName];
        }
      }
      assert includeRooms - todo == includeRooms;
    }

    method RemoveExcluded(included: set<Id>) returns (targets: set<Id>)
      ensures targets == included - excludeConnectionIds
    {
      targets := included;
      var todo := excludeConnectionIds;
      while todo != {}
        invariant todo <= excludeConnectionIds
        invariant targets == included - (excludeConnectionIds - todo)
      {
        var excluded :| excluded in todo;
        todo := todo - {excluded};
        targets := targets - {excluded};
      }
    }

    /** The connections that `for_each_target_connections` hands to its function: every target that is still in
        `connections`, each once. */
    method TargetConnections() returns (visited: seq<WsIoServerConnection>)
      requires forall id :: id in namespace.connections ==> namespace.connections[id].id == id
      ensures forall c :: c in visited <==> c.id in Reached() && c.id in namespace.connections && namespace.connections[c.id] == c
      ensures forall i, j :: 0 <= i < j < |visited| ==> visited[i].id != visited[j].id
    {
      var todo := TargetConnectionIds();
      visited := [];
      while todo != {}
        invariant todo <= Reached()
        invariant forall c :: c in visited <==>
                    c.id in Reached() - todo && c.id in namespace.connections && namespace.connections[c.id] == c
        invariant forall i, j :: 0 <= i < j < |visited| ==> visited[i].id != visited[j].id
      {
        var id :| id in todo;
        todo := todo - {id};
        if id in namespace.connections {
          visited := visited + [namespace.connections[id]];
        }
      }
    }

    /** `close`: every reached connection is closed, with a close frame if it was live and its own channel has room,
        and no other connection is touched. */
    method Close()
      requires forall id :: id in namespace.connections ==>
                 var c := namespace.connections[id]; c.id == id && c.namespace == namespace && c.Valid()
      modifies namespace.connections.Values
      ensures forall id :: id in namespace.connections ==>
                var c := namespace.connections[id];
                && c.Valid()
                && (if id in Reached() then !S.Live(c.state) else c.state == old(c.state))
                && c.channel == if id in Reached() then Closing(old(c.state), old(c.channel), c.capacity) else old(c.channel)
    {
      var visited := TargetConnections();
      assert forall c :: c in visited ==> c in namespace.connections.Values;
      assert forall i, j :: 0 <= i < j < |visited| ==> visited[i].id != visited[j].id;
      CloseEach(visited);
      forall id | id in namespace.connections
        ensures namespace.connections[id] in visited <==> id in Reached()
      {
        assert namespace.connections[id].id == id;
      }
    }

    /** `emit`: unless the namespace has begun to stop, the event is queued on every reached connection that is Ready
        and on no other, and no connection changes its state. */
    method Emit(m: Message) returns (ok: bool)
      requires forall id :: id in namespace.connections ==>
                 var c := namespace.connections[id]; c.id == id && c.namespace == namespace && c.Valid()
      modifies namespace.connections.Values
      ensures ok == (namespace.status == N.Running)
      ensures forall id :: id in namespace.connections ==>
                var c := namespace.connections[id];
                && c.Valid() && c.state == old(c.state)
                && c.channel.queue == if ok && id in Reached() && c.state == S.Ready
                                      then old(c.channel).Send(EventPacket(m)).queue else old(c.channel.queue)
    {
      ok := namespace.status == N.Running;
      if !ok {
        return;
      }
      var visited := TargetConnections();
      assert forall c :: c in visited ==> c in namespace.connections.Values;
      assert forall i, j :: 0 <= i < j < |visited| ==> visited[i].id != visited[j].id;
      EmitEach(visited, m);
      forall id | id in namespace.connections
        ensures namespace.connections[id] in visited <==> id in Reached()
      {
        assert namespace.connections[id].id == id;
      }
    }

    static method EmitEach(connections: seq<WsIoServerConnection>, m: Message)
      requires forall c :: c in connections ==> c.Valid()
      requires forall i, j :: 0 <= i < j < |connections| ==> connections[i] != connections[j]
      modifies set c | c in connections
      ensures forall c :: c in connections ==> c.Valid() && Emitted(c, m)
    {
      for k := 0 to |connections|
        invariant forall c :: c in connections ==> c.Valid()
        invariant forall i :: 0 <= i < k ==> Emitted(connections[i], m)
        invariant forall i :: k <= i < |connections| ==>
                    connections[i].channel == old(connections[i].channel) && connections[i].state == old(connections[i].state)
      {
        EmitOne(connections, connections[k], m);
      }
    }

    /** The event has been queued on `c` if it is Ready. */
    static twostate predicate Emitted(c: WsIoServerConnection, m: Message)
      reads c
    {
      && c.state == old(c.state)
      && c.channel.queue == if c.state == S.Ready then old(c.channel).Send(EventPacket(m)).queue else old(c.channel.queue)
    }

    static method EmitOne(connections: seq<WsIoServerConnection>, c: WsIoServerConnection, m: Message)
      requires c in connections && forall d :: d in connections ==> d.Valid()
      modifies c
      ensures forall d :: d in connections ==> d.Valid()
      ensures Emitted(c, m)
    {
      var _ := c.EmitEventMessage(m);
    }

    /** `disconnect`: the disconnect packet is queued on every reached connection, whatever state it is in. */
    method Disconnect()
      requires forall id :: id in namespace.connections ==>
                 var c := namespace.connections[id]; c.id == id && c.namespace == namespace && c.Valid()
      modifies namespace.connections.Values
      ensures forall id :: id in namespace.connections ==>
                var c := namespace.connections[id];
                && c.Valid() && c.state == old(c.state)
                && c.channel.queue == if id in Reached() then old(c.channel).Send(DisconnectPacket).queue else old(c.channel.queue)
    {
      var visited := TargetConnections();
      assert forall c :: c in visited ==> c in namespace.connections.Values;
      assert forall i, j :: 0 <= i < j < |visited| ==> visited[i].id != visited[j].id;
      DisconnectEach(visited);
      forall id | id in namespace.connections
        ensures namespace.connections[id] in visited <==> id in Reached()
      {
        assert namespace.connections[id].id == id;
      }
    }

    static method DisconnectEach(connections: seq<WsIoServerConnection>)
      requires forall c :: c in connections ==> c.Valid()
      requires forall i, j :: 0 <= i < j < |connections| ==> connections[i] != connections[j]
      modifies set c | c in connections
      ensures forall c :: c in connections ==> c.Valid() && Told(c)
    {
      for k := 0 to |connections|
        invariant forall c :: c in connections ==> c.Valid()
        invariant forall i :: 0 <= i < k ==> Told(connections[i])
        invariant forall i :: k <= i < |connections| ==>
                    connections[i].channel == old(connections[i].channel) && connections[i].state == old(connections[i].state)
      {
        DisconnectOne(connections, connections[k]);
      }
    }

    /** The disconnect packet has been queued on `c`. */
    static twostate predicate Told(c: WsIoServerConnection)
      reads c
    {
      c.state == old(c.state) && c.channel.queue == old(c.channel).Send(DisconnectPacket).queue
    }

    static method DisconnectOne(connections: seq<WsIoServerConnection>, c: WsIoServerConnection)
      requires c in connections && forall d :: d in connections ==> d.Valid()
      modifies c
      ensures forall d :: d in connections ==> d.Valid()
      ensures Told(c)
    {
      var _ := c.SendDisconnect();
    }

    static method CloseEach(connections: seq<WsIoServerConnection>)
      requires forall c :: c in connections ==> c.Valid()
      requires forall i, j :: 0 <= i < j < |connections| ==> connections[i] != connections[j]
      modifies set c | c in connections
      ensures forall c :: c in connections ==> c.Valid() && Closed(c)
    {
      for k := 0 to |connections|
        invariant forall c :: c in connections ==> c.Valid()
        invariant forall i :: 0 <= i < k ==> Closed(connections[i])
        invariant forall i :: k <= i < |connections| ==>
                    connections[i].channel == old(connections[i].channel) && connections[i].state == old(connections[i].state)
      {
        CloseOne(connections, k);
      }
    }

    /** `c` has been closed. */
    static twostate predicate Closed(c: WsIoServerConnection)
      reads c
    {
      !S.Live(c.state) && c.channel == Closing(old(c.state), old(c.channel), c.capacity)
    }

    static method CloseOne(connections: seq<WsIoServerConnection>, k: nat)
      requires k < |connections| && forall c :: c in connections ==> c.Valid()
      modifies connections[k]
      ensures forall c :: c in connections ==> c.Valid()
      ensures Closed(connections[k])
    {
      connections[k].Close();
    }
  }

  /** Where the indexes are in step, an operator reaches an indexed connection exactly if that connection's own
      `joined_rooms` says so; so this is also who receives an `emit` or a `disconnect` and who is closed. */
  lemma ReachedIffWanted(operator: WsIoServerNamespaceBroadcastOperator, id: Id)
    requires operator.namespace.connectionIds == operator.namespace.connections.Keys && id in operator.namespace.connections
    requires Agree(operator.namespace.rooms, operator.namespace.connections[id].joinedRooms, id)
    ensures id in operator.Reached() <==>
              Wanted(id, operator.namespace.connections[id].joinedRooms, operator.Selected())
  {
    MemberIffJoined(operator.namespace.rooms, operator.namespace.connections[id].joinedRooms, id, operator.includeRooms);
    MemberIffJoined(operator.namespace.rooms, operator.namespace.connections[id].joinedRooms, id, operator.excludeRooms);
  }
}
