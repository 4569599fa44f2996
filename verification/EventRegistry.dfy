/** The event registry under any interleaving of `on`, `off`, `dispatch_event_packet` and the phases of
    `off_by_handler_id`. Entries are shared: they live in an arena, and a dispatch may still hold one
    that the registry has dropped. */
module EventRegistry {
  type TypeId = nat
  const UNIT: TypeId := 0

  /** Handler ids are 32-bit and wrap around. */
  const ID_COUNT: nat := 0x1_0000_0000
  type HandlerId = nat

  datatype Handler = Handler(typeId: TypeId, code: nat)

  /** One payload type per entry. */
  datatype Entry = Entry(typeId: TypeId, handlers: map<HandlerId, Handler>)

  /** Where an `off_by_handler_id` stands. At `Remove` and `Check` it holds the read lock of the entries
      and has found its event's entry; `Prune` waits for the write lock. */
  datatype Call =
    | Lookup(event: string, id: HandlerId)
    | Remove(event: string, id: HandlerId, entry: nat)
    | Check(event: string, entry: nat)
    | Prune(event: string)

  /** `registered` is history: the ids handed out, in order. */
  datatype State = State(arena: seq<Entry>, entries: map<string, nat>, nextId: nat, calls: map<nat, Call>,
                         registered: seq<HandlerId>)

  const NEW_STATE := State([], map[], 0, map[], [])

  datatype Step =
    | On(event: string, handler: Handler)
    | Off(event: string)
    | OffBegin(t: nat, event: string, id: HandlerId)
    | OffStep(t: nat)

  predicate Reading(call: Call)
  {
    call.Remove? || call.Check?
  }

  /** The write lock needs that nobody holds the read lock. */
  predicate WriteFree(s: State)
  {
    forall t :: t in s.calls ==> !Reading(s.calls[t])
  }

  predicate Can(s: State, step: Step)
  {
    match step
    case On(_, _) => WriteFree(s)
    case Off(_) => WriteFree(s)
    case OffBegin(t, _, _) => t !in s.calls
    case OffStep(t) => t in s.calls && (s.calls[t].Prune? ==> WriteFree(s))
  }

  /** `on` panics, and changes nothing, if the event is registered with another payload type. */
  predicate Panics(s: State, event: string, handler: Handler)
  {
    event in s.entries && s.entries[event] < |s.arena| && s.arena[s.entries[event]].typeId != handler.typeId
  }

  function Register(s: State, event: string, handler: Handler): State
  {
    if Panics(s, event, handler) then s
    else
      var vacant := event !in s.entries || s.entries[event] >= |s.arena|;
      var at := if vacant then |s.arena| else s.entries[event];
      var arena := if vacant then s.arena + [Entry(handler.typeId, map[])] else s.arena;
      s.(arena := arena[at := arena[at].(handlers := arena[at].handlers[s.nextId := handler])],
         entries := s.entries[event := at],
         nextId := (s.nextId + 1) % ID_COUNT,
         registered := s.registered + [s.nextId])
  }

  function OffStepped(s: State, t: nat): State
    requires t in s.calls
  {
    match s.calls[t]
    case Lookup(event, id) =>
      s.(calls := s.calls[t := if event in s.entries then Remove(event, id, s.entries[event]) else Prune(event)])
    case Remove(event, id, at) =>
      if at < |s.arena|
      then s.(arena := s.arena[at := s.arena[at].(handlers := s.arena[at].handlers - {id})], calls := s.calls[t := Check(event, at)])
      else s
    case Check(event, at) =>
      if at < |s.arena| && s.arena[at].handlers != map[] then s.(calls := s.calls - {t})
      else s.(calls := s.calls[t := Prune(event)])
    case Prune(event) =>
      if event in s.entries && s.entries[event] < |s.arena| && s.arena[s.entries[event]].handlers == map[]
      then s.(entries := s.entries - {event}, calls := s.calls - {t})
      else s.(calls := s.calls - {t})
  }

  function Do(s: State, step: Step): State
    requires Can(s, step)
  {
    match step
    case On(event, handler) => Register(s, event, handler)
    case Off(event) => s.(entries := s.entries - {event})
    case OffBegin(t, event, id) => s.(calls := s.calls[t := Lookup(event, id)])
    case OffStep(t) => OffStepped(s, t)
  }

  predicate Run(s: State, steps: seq<Step>, s': State)
    decreases |steps|
  {
    if steps == [] then s == s' else Can(s, steps[0]) && Run(Do(s, steps[0]), steps[1..], s')
  }

  // ---- What every step keeps ----

  /** Every registered event has its own entry, and an `off_by_handler_id` that holds the read lock holds that entry. */
  ghost predicate EntriesInv(s: State)
  {
    && (forall e :: e in s.entries ==> s.entries[e] < |s.arena|)
    && (forall e, f :: e in s.entries && f in s.entries && e != f ==> s.entries[e] != s.entries[f])
    && (forall t :: t in s.calls && Reading(s.calls[t]) ==> Holds(s, s.calls[t].event, s.calls[t].entry))
  }

  predicate Holds(s: State, event: string, at: nat)
  {
    event in s.entries && s.entries[event] == at && at < |s.arena|
  }

  /** Every handler of an entry has the entry's payload type, also in entries the registry has dropped. */
  ghost predicate TypesInv(arena: seq<Entry>)
  {
    forall k, i :: 0 <= k < |arena| && i in arena[k].handlers ==> arena[k].handlers[i].typeId == arena[k].typeId
  }

  predicate Clearing(call: Call, event: string)
  {
    (call.Check? || call.Prune?) && call.event == event
  }

  /** Every empty entry has an `off_by_handler_id` on its way to remove it. */
  ghost predicate EmptyInv(s: State)
  {
    forall e :: Empty(s, e) ==> exists t :: t in s.calls && Clearing(s.calls[t], e)
  }

  predicate IdsInv(s: State)
  {
    && s.nextId == |s.registered| % ID_COUNT
    && forall k :: 0 <= k < |s.registered| ==> s.registered[k] == k % ID_COUNT
  }

  ghost predicate Inv(s: State)
  {
    EntriesInv(s) && TypesInv(s.arena) && EmptyInv(s) && IdsInv(s)
  }

  lemma EntriesStep(s: State, step: Step)
    requires EntriesInv(s) && Can(s, step)
    ensures EntriesInv(Do(s, step))
  {
    match step
    case On(event, handler) => EntriesOn(s, event, handler);
    case OffStep(t) => EntriesOffStep(s, t);
    case _ =>
  }

  lemma EntriesOn(s: State, event: string, handler: Handler)
    requires EntriesInv(s) && WriteFree(s)
    ensures EntriesInv(Register(s, event, handler))
  {
  }

  lemma EntriesOffStep(s: State, t: nat)
    requires EntriesInv(s) && Can(s, OffStep(t))
    ensures EntriesInv(OffStepped(s, t))
  {
  }

  lemma TypesStep(s: State, step: Step)
    requires EntriesInv(s) && TypesInv(s.arena) && Can(s, step)
    ensures TypesInv(Do(s, step).arena)
  {
  }

  predicate Empty(s: State, e: string)
  {
    e in s.entries && s.entries[e] < |s.arena| && s.arena[s.entries[e]].handlers == map[]
  }

  lemma EmptyStep(s: State, step: Step)
    requires EntriesInv(s) && EmptyInv(s) && Can(s, step)
    ensures EmptyInv(Do(s, step))
  {
    var s' := Do(s, step);
    forall e | Empty(s', e)
      ensures exists t :: t in s'.calls && Clearing(s'.calls[t], e)
    {
      if step.OffStep? {
        EmptyOffStep(s, step.t, e);
      } else {
        NewlyEmpty(s, step, e);
        var t :| t in s.calls && Clearing(s.calls[t], e);
        assert t in s'.calls && Clearing(s'.calls[t], e);
      }
    }
  }

  /** Only `off_by_handler_id` empties an entry. */
  lemma NewlyEmpty(s: State, step: Step, e: string)
    requires EntriesInv(s) && Can(s, step) && !step.OffStep?
    ensures Empty(Do(s, step), e) ==> Empty(s, e)
  {
    if step.On? {
      RegisteredNotEmpty(s, step.event, step.handler);
    }
  }

  lemma RegisteredNotEmpty(s: State, event: string, handler: Handler)
    requires EntriesInv(s)
    ensures !Panics(s, event, handler) ==> !Empty(Register(s, event, handler), event)
  {
    if !Panics(s, event, handler) {
      var s' := Register(s, event, handler);
      assert s.nextId in s'.arena[s'.entries[event]].handlers;
    }
  }

  lemma EmptyOffStep(s: State, t: nat, e: string)
    requires EntriesInv(s) && EmptyInv(s) && Can(s, OffStep(t)) && Empty(Do(s, OffStep(t)), e)
    ensures exists u :: u in Do(s, OffStep(t)).calls && Clearing(Do(s, OffStep(t)).calls[u], e)
  {
    var s' := Do(s, OffStep(t));
    if s.calls[t].Remove? && s.calls[t].event == e {
      assert t in s'.calls && Clearing(s'.calls[t], e);
    } else {
      StillEmpty(s, t, e);
      var u :| u in s.calls && Clearing(s.calls[u], e);
      assert u in s'.calls && Clearing(s'.calls[u], e);
    }
  }

  lemma StillEmpty(s: State, t: nat, e: string)
    requires EntriesInv(s) && Can(s, OffStep(t)) && Empty(Do(s, OffStep(t)), e)
    requires !(s.calls[t].Remove? && s.calls[t].event == e)
    ensures Empty(s, e)
    ensures s.calls[t].Check? && s.calls[t].event == e ==> s.arena[s.calls[t].entry].handlers == map[]
    ensures s.calls[t].Prune? ==> s.calls[t].event != e
  {
  }

  lemma IdsStep(s: State, step: Step)
    requires IdsInv(s) && Can(s, step)
    ensures IdsInv(Do(s, step))
  {
  }

  lemma InvStep(s: State, step: Step)
    requires Inv(s) && Can(s, step)
    ensures Inv(Do(s, step))
  {
    EntriesStep(s, step);
    TypesStep(s, step);
    EmptyStep(s, step);
    IdsStep(s, step);
  }

  lemma {:induction false} InvRun(s: State, steps: seq<Step>, s': State)
    requires Inv(s) && Run(s, steps, s')
    ensures Inv(s')
    decreases |steps|
  {
    if steps != [] {
      InvStep(s, steps[0]);
      InvRun(Do(s, steps[0]), steps[1..], s');
    }
  }

  // ---- The simple view ----

  /** The handlers registered for an event. */
  function Handlers(s: State, event: string): map<HandlerId, Handler>
  {
    if event in s.entries && s.entries[event] < |s.arena| then s.arena[s.entries[event]].handlers else map[]
  }

  /** What a step does to the handlers of one event: `on` adds one, `off` removes all, the removal step of an
      `off_by_handler_id` removes one, and every other step, whatever it does to the entries, changes nothing. */
  function Effect(s: State, step: Step, event: string): map<HandlerId, Handler>
    requires Can(s, step)
  {
    var now := Handlers(s, event);
    match step
    case On(e, h) => if e == event && !Panics(s, e, h) then now[s.nextId := h] else now
    case Off(e) => if e == event then map[] else now
    case OffStep(t) =>
      if s.calls[t].Remove? && s.calls[t].event == event then now - {s.calls[t].id} else now
    case _ => now
  }

  lemma StepRefinesView(s: State, step: Step, event: string)
    requires EntriesInv(s) && Can(s, step)
    ensures Handlers(Do(s, step), event) == Effect(s, step, event)
  {
  }

  /** In any interleaving the registry is a map from events to handlers: each step changes it as its call says,
      so the pruning phase of one thread never drops a handler that another thread has registered. */
  lemma RegistryRefinesMap(steps: seq<Step>, s: State, step: Step)
    requires Run(NEW_STATE, steps, s) && Can(s, step)
    ensures forall event :: Handlers(Do(s, step), event) == Effect(s, step, event)
  {
    InvRun(NEW_STATE, steps, s);
    forall event ensures Handlers(Do(s, step), event) == Effect(s, step, event) {
      StepRefinesView(s, step, event);
    }
  }

  /** When no call is under way, every entry has a handler. */
  lemma NoEmptyEntryWhenIdle(steps: seq<Step>, s: State)
    requires Run(NEW_STATE, steps, s) && s.calls == map[]
    ensures forall event :: event in s.entries ==> Handlers(s, event) != map[]
  {
    InvRun(NEW_STATE, steps, s);
    forall event | event in s.entries ensures Handlers(s, event) != map[] {
      assert !Empty(s, event);
    }
  }

  /** The ids handed out are distinct exactly as long as there are no more than 2^32 of them. */
  lemma IdsDistinct(steps: seq<Step>, s: State)
    requires Run(NEW_STATE, steps, s)
    ensures (forall i, j :: 0 <= i < j < |s.registered| ==> s.registered[i] != s.registered[j])
            <==> |s.registered| <= ID_COUNT
  {
    InvRun(NEW_STATE, steps, s);
    if |s.registered| > ID_COUNT {
      assert s.registered[0] == s.registered[ID_COUNT];
    } else {
      forall i, j | 0 <= i < j < |s.registered|
        ensures s.registered[i] != s.registered[j]
      {
        assert i % ID_COUNT == i && j % ID_COUNT == j;
      }
    }
  }

  // ---- Dispatch ----

  /** What arrives: no payload, or one that the entry's decoder accepts or rejects. */
  datatype Payload = NoPayload | Decodable | Undecodable

  /** The type of the data handed to the handlers; nothing is handed over if decoding fails. */
  datatype Data = NoData | Data(typeId: TypeId)

  function Decode(entry: Entry, payload: Payload): Data
  {
    match payload
    case NoPayload => Data(UNIT)
    case Decodable => Data(entry.typeId)
    case Undecodable => NoData
  }

  /** A handler that is handed data of another type does nothing. */
  function Invoked(entry: Entry, payload: Payload): set<HandlerId>
  {
    match Decode(entry, payload)
    case NoData => {}
    case Data(d) => set i | i in entry.handlers && entry.handlers[i].typeId == d
  }

  /** Whichever entry a dispatch has captured, and whatever has happened to the registry since: a payload that decodes
      reaches every handler the entry holds when it is read; no payload reaches all of them if the event's type is the
      unit type and none otherwise; one that does not decode reaches none. */
  lemma DispatchReaches(steps: seq<Step>, s: State, captured: nat, payload: Payload)
    requires Run(NEW_STATE, steps, s) && captured < |s.arena|
    ensures var entry := s.arena[captured];
            Invoked(entry, payload) ==
              match payload
              case Decodable => entry.handlers.Keys
              case NoPayload => if entry.typeId == UNIT then entry.handlers.Keys else {}
              case Undecodable => {}
  {
    InvRun(NEW_STATE, steps, s);
    var entry := s.arena[captured];
    assert forall i :: i in entry.handlers ==> entry.handlers[i].typeId == entry.typeId;
  }

  /** The loop of `dispatch_event_packet` over the handlers, for every order: each invoked handler runs once. */
  method Dispatch(entry: Entry, payload: Payload) returns (ran: seq<HandlerId>)
    ensures forall i :: i in ran <==> i in Invoked(entry, payload)
    ensures forall k, l :: 0 <= k < l < |ran| ==> ran[k] != ran[l]
  {
    ran := [];
    var data := Decode(entry, payload);
    if data.NoData? {
      return;
    }
    var todo := entry.handlers.Keys;
    while todo != {}
      invariant todo <= entry.handlers.Keys
      invariant forall i :: i in ran <==> i in Invoked(entry, payload) - todo
      invariant forall k, l :: 0 <= k < l < |ran| ==> ran[k] != ran[l]
    {
      var id :| id in todo;
      assert id !in ran;
      if entry.handlers[id].typeId == data.typeId {
        ran := ran + [id];
      }
      todo := todo - {id};
    }
  }

  // ---- The registry as the source updates it, one whole call at a time ----

  datatype Registered = Panicked | Id(id: HandlerId)

  class EventEntry {
    const dataTypeId: TypeId
    var handlers: map<HandlerId, Handler>

    constructor (dataTypeId: TypeId)
      ensures this.dataTypeId == dataTypeId && handlers == map[]
    {
      this.dataTypeId := dataTypeId;
      handlers := map[];
    }
  }

  class WsIoEventRegistry {
    var eventEntries: map<string, EventEntry>
    var nextHandlerId: nat

    ghost predicate Valid()
      reads this, eventEntries.Values
    {
      && nextHandlerId < ID_COUNT
      && (forall e :: e in eventEntries ==> eventEntries[e].handlers != map[])
      && (forall e, f :: e in eventEntries && f in eventEntries && e != f ==> eventEntries[e] != eventEntries[f])
      && (forall e, i :: e in eventEntries && i in eventEntries[e].handlers ==>
            eventEntries[e].handlers[i].typeId == eventEntries[e].dataTypeId)
    }

    ghost function HandlersOf(event: string): map<HandlerId, Handler>
      reads this, eventEntries.Values
    {
      if event in eventEntries then eventEntries[event].handlers else map[]
    }

    constructor ()
      ensures Valid() && forall event :: HandlersOf(event) == map[]
    {
      eventEntries := map[];
      nextHandlerId := 0;
    }

    method On(event: string, handler: Handler) returns (result: Registered)
      requires Valid()
      modifies this, eventEntries.Values
      ensures Valid()
      ensures result.Panicked? <==> old(event in eventEntries && eventEntries[event].dataTypeId != handler.typeId)
      ensures result.Panicked? ==> forall e :: HandlersOf(e) == old(HandlersOf(e))
      ensures result.Id? ==> result.id == old(nextHandlerId) && nextHandlerId == (old(nextHandlerId) + 1) % ID_COUNT
      ensures result.Id? ==> HandlersOf(event) == old(HandlersOf(event))[result.id := handler]
      ensures result.Id? ==> forall e :: e != event ==> HandlersOf(e) == old(HandlersOf(e))
    {
      if event in eventEntries && eventEntries[event].dataTypeId != handler.typeId {
        return Panicked;
      }
      var id := nextHandlerId;
      nextHandlerId := (nextHandlerId + 1) % ID_COUNT;
      if event in eventEntries {
        AddTo(event, id, handler);
      } else {
        AddNew(event, id, handler);
      }
      return Id(id);
    }

    method AddTo(event: string, id: HandlerId, handler: Handler)
      requires Valid() && event in eventEntries && eventEntries[event].dataTypeId == handler.typeId
      modifies eventEntries.Values
      ensures Valid() && HandlersOf(event) == old(HandlersOf(event))[id := handler]
      ensures forall e :: e != event ==> HandlersOf(e) == old(HandlersOf(e))
    {
      var entry := eventEntries[event];
      entry.handlers := entry.handlers[id := handler];
      assert id in entry.handlers;
    }

    method AddNew(event: string, id: HandlerId, handler: Handler)
      requires Valid() && event !in eventEntries
      modifies this`eventEntries
      ensures Valid() && HandlersOf(event) == map[id := handler]
      ensures forall e :: e != event ==> HandlersOf(e) == old(HandlersOf(e))
    {
      var entry := new EventEntry(handler.typeId);
      entry.handlers := map[id := handler];
      assert id in entry.handlers;
      eventEntries := eventEntries[event := entry];
    }

    method Off(event: string)
      requires Valid()
      modifies this`eventEntries
      ensures Valid() && HandlersOf(event) == map[]
      ensures forall e :: e != event ==> HandlersOf(e) == old(HandlersOf(e))
    {
      eventEntries := eventEntries - {event};
    }

    method OffByHandlerId(event: string, id: HandlerId)
      requires Valid()
      modifies this`eventEntries, eventEntries.Values
      ensures Valid() && HandlersOf(event) == old(HandlersOf(event)) - {id}
      ensures forall e :: e != event ==> HandlersOf(e) == old(HandlersOf(e))
    {
      if event in eventEntries {
        var entry := eventEntries[event];
        entry.handlers := entry.handlers - {id};
        if entry.handlers != map[] {
          return;
        }
      }
      if event in eventEntries && eventEntries[event].handlers == map[] {
        eventEntries := eventEntries - {event};
      }
    }
  }
}
