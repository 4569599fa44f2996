/** Broadcast targeting: which connections a broadcast reaches. */
module Broadcast {
  import opened Rooms

  // ---- What is computed from the indexes ----

  /** What a broadcast operator has been told. */
  datatype Selection = Selection(including: set<Room>, excluding: set<Room>, excludeIds: set<Id>)

  const EVERYONE := Selection({}, {}, {})

  datatype Builder = To(names: set<Room>) | Except(names: set<Room>) | ExceptConnectionIds(ids: set<Id>)

  function Apply(selection: Selection, call: Builder): Selection
  {
    match call
    case To(names) => selection.(including := selection.including + names)
    case Except(names) => selection.(excluding := selection.excluding + names)
    case ExceptConnectionIds(ids) => selection.(excludeIds := selection.excludeIds + ids)
  }

  function ApplyAll(selection: Selection, calls: seq<Builder>): Selection
    decreases |calls|
  {
    if calls == [] then selection else ApplyAll(Apply(selection, calls[0]), calls[1..])
  }

  /** The connections in at least one of the rooms. */
  function Members(rooms: RoomMap, names: set<Room>): set<Id>
  {
    set r, c | r in names && r in rooms && c in rooms[r] :: c
  }

  function Targets(ids: set<Id>, rooms: RoomMap, selection: Selection): set<Id>
  {
    (if selection.including == {} then ids else Members(rooms, selection.including))
    - Members(rooms, selection.excluding) - selection.excludeIds
  }

  lemma MembersAdd(rooms: RoomMap, names: set<Room>, r: Room)
    ensures Members(rooms, names + {r}) == Members(rooms, names) + if r in rooms then rooms[r] else {}
  {
  }

  lemma MembersMonotone(rooms: RoomMap, names: set<Room>, more: set<Room>)
    requires names <= more
    ensures Members(rooms, names) <= Members(rooms, more)
  {
  }

  // ---- What a broadcast means ----

  /** A connection is wanted if it has joined an included room (or none is named), has joined no excluded room and is
      not excluded itself. */
  predicate Wanted(c: Id, mine: set<Room>, selection: Selection)
  {
    && (selection.including == {} || mine * selection.including != {})
    && mine * selection.excluding == {}
    && c !in selection.excludeIds
  }

  /** Where the indexes are in step with each other and with every connection's own `joined_rooms`, the indexed targets
      are exactly the indexed connections that are wanted. */
  lemma TargetsAreWanted(connected: set<Id>, rooms: RoomMap, joined: map<Id, set<Room>>, selection: Selection)
    requires forall c :: c in connected ==> Agree(rooms, Joined(joined, c), c)
    ensures Targets(connected, rooms, selection) * connected
         == set c | c in connected && Wanted(c, Joined(joined, c), selection)
  {
    forall c | c in connected
      ensures c in Members(rooms, selection.including) <==> Joined(joined, c) * selection.including != {}
      ensures c in Members(rooms, selection.excluding) <==> Joined(joined, c) * selection.excluding != {}
    {
      MemberIffJoined(rooms, Joined(joined, c), c, selection.including);
      MemberIffJoined(rooms, Joined(joined, c), c, selection.excluding);
    }
  }

  lemma MemberIffJoined(rooms: RoomMap, mine: set<Room>, c: Id, names: set<Room>)
    requires Agree(rooms, mine, c)
    ensures c in Members(rooms, names) <==> mine * names != {}
  {
    if c in Members(rooms, names) {
      var r :| r in names && In(rooms, r, c);
      assert r in mine * names;
    }
    if mine * names != {} {
      var r :| r in mine * names;
      assert In(rooms, r, c);
    }
  }

  /** In every run of serialised joins, leaves and cleanups, a broadcast computed while no call is under way reaches
      exactly the wanted connections among those indexed. */
  lemma BroadcastReachesWanted(steps: seq<Step>, s: State, connected: set<Id>, selection: Selection)
    requires SerialRun(NEW_STATE, steps, s) && s.tasks == map[]
    ensures Targets(connected, s.rooms, selection) * connected
         == set c | c in connected && Wanted(c, Joined(s.joined, c), selection)
  {
    RoomsAgree(steps, s);
    assert forall c :: !Busy(s, c);
    TargetsAreWanted(connected, s.rooms, s.joined, selection);
  }

  /** Whoever is excluded stays excluded, whatever is called on the operator afterwards; so what `to` and `except` of a
      connection build never reaches the connection itself, and it changes nothing for the others. */
  lemma SenderNeverReached(selection: Selection, calls: seq<Builder>, sender: Id, ids: set<Id>, rooms: RoomMap)
    requires sender in selection.excludeIds
    ensures sender !in Targets(ids, rooms, ApplyAll(selection, calls))
    ensures Targets(ids, rooms, ApplyAll(selection, calls))
         == Targets(ids, rooms, ApplyAll(selection.(excludeIds := selection.excludeIds - {sender}), calls)) - {sender}
  {
    ApplyAllWithout(selection, selection.(excludeIds := selection.excludeIds - {sender}), calls, sender);
  }

  lemma {:induction false} ApplyAllWithout(a: Selection, b: Selection, calls: seq<Builder>, sender: Id)
    requires a == b.(excludeIds := b.excludeIds + {sender})
    ensures ApplyAll(a, calls) == ApplyAll(b, calls).(excludeIds := ApplyAll(b, calls).excludeIds + {sender})
    decreases |calls|
  {
    if calls != [] {
      var a', b' := Apply(a, calls[0]), Apply(b, calls[0]);
      assert a' == b'.(excludeIds := b'.excludeIds + {sender});
      ApplyAllWithout(a', b', calls[1..], sender);
    }
  }
}
