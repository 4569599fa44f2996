/** The rooms of a namespace and the `joined_rooms` of its connections, under any interleaving of the single map
    operations of any number of `join`, `leave` and `cleanup` calls. */
module Rooms {
  import opened Options

  type Room = string
  type Id = nat
  type RoomMap = map<Room, set<Id>>

  // ---- The three operations on the rooms map ----

  /** `rooms.entry(r).or_default().insert(id)` */
  function Add(rooms: RoomMap, r: Room, id: Id): RoomMap
  {
    rooms[r := (if r in rooms then rooms[r] else {}) + {id}]
  }

  /** `rooms.get_mut(r)` and, if it exists, `remove(id)` */
  function RemoveId(rooms: RoomMap, r: Room, id: Id): RoomMap
  {
    if r in rooms then rooms[r := rooms[r] - {id}] else rooms
  }

  /** `rooms.remove_if(r, is_empty)` */
  function Prune(rooms: RoomMap, r: Room): RoomMap
  {
    if r in rooms && rooms[r] == {} then rooms - {r} else rooms
  }

  predicate In(rooms: RoomMap, r: Room, id: Id)
  {
    r in rooms && id in rooms[r]
  }

  /** The simple view: which connection is in which room. */
  function Relation(rooms: RoomMap): set<(Room, Id)>
  {
    set r, id | r in rooms && id in rooms[r] :: (r, id)
  }

  lemma RelationIn(rooms: RoomMap, r: Room, id: Id)
    ensures (r, id) in Relation(rooms) <==> In(rooms, r, id)
  {
  }

  // ---- Lists of rooms, as `join`, `leave` and `cleanup` go through them ----

  function AddAll(rooms: RoomMap, names: seq<Room>, id: Id): RoomMap
  {
    if names == [] then rooms else Add(AddAll(rooms, names[..|names| - 1], id), names[|names| - 1], id)
  }

  /** One `remove_connection_id_from_room` after the other. */
  function RemoveAll(rooms: RoomMap, names: seq<Room>, id: Id): RoomMap
  {
    if names == [] then rooms
    else
      var r := names[|names| - 1];
      Prune(RemoveId(RemoveAll(rooms, names[..|names| - 1], id), r, id), r)
  }

  lemma AddIn(rooms: RoomMap, name: Room, id: Id)
    ensures forall r, c :: In(Add(rooms, name, id), r, c) <==> In(rooms, r, c) || (c == id && r == name)
  {
  }

  lemma RemoveIn(rooms: RoomMap, name: Room, id: Id)
    ensures forall r, c :: In(Prune(RemoveId(rooms, name, id), name), r, c) <==> In(rooms, r, c) && !(c == id && r == name)
    ensures NoEmptyRoom(rooms) ==> NoEmptyRoom(Prune(RemoveId(rooms, name, id), name))
  {
    var removed := RemoveId(rooms, name, id);
    forall r, c
      ensures In(removed, r, c) <==> In(rooms, r, c) && !(c == id && r == name)
      ensures In(Prune(removed, name), r, c) <==> In(removed, r, c)
    {
    }
  }

  lemma {:induction false} AddAllIn(rooms: RoomMap, names: seq<Room>, id: Id)
    ensures forall r, c :: In(AddAll(rooms, names, id), r, c) <==> In(rooms, r, c) || (c == id && r in names)
  {
    if names != [] {
      var n := |names| - 1;
      AddAllIn(rooms, names[..n], id);
      AddIn(AddAll(rooms, names[..n], id), names[n], id);
      assert forall r :: r in names <==> r in names[..n] || r == names[n];
    }
  }

  predicate NoEmptyRoom(rooms: RoomMap)
  {
    forall r :: r in rooms ==> rooms[r] != {}
  }

  /** Removal takes the connection out of the listed rooms and of nothing else, and leaves no empty room behind. */
  lemma {:induction false} RemoveAllIn(rooms: RoomMap, names: seq<Room>, id: Id)
    ensures forall r, c :: In(RemoveAll(rooms, names, id), r, c) <==> In(rooms, r, c) && !(c == id && r in names)
    ensures NoEmptyRoom(rooms) ==> NoEmptyRoom(RemoveAll(rooms, names, id))
  {
    if names != [] {
      var n := |names| - 1;
      RemoveAllIn(rooms, names[..n], id);
      RemoveIn(RemoveAll(rooms, names[..n], id), names[n], id);
      assert forall r :: r in names <==> r in names[..n] || r == names[n];
    }
  }

  /** Leaving what was just joined restores the map, for a connection that was in none of the rooms. */
  lemma LeaveUndoesJoin(rooms: RoomMap, names: seq<Room>, id: Id)
    requires NoEmptyRoom(rooms) && forall r :: r in names ==> !In(rooms, r, id)
    ensures RemoveAll(AddAll(rooms, names, id), names, id) == rooms
  {
    var after := RemoveAll(AddAll(rooms, names, id), names, id);
    AddAllIn(rooms, names, id);
    AddAllNoEmpty(rooms, names, id);
    RemoveAllIn(AddAll(rooms, names, id), names, id);
    SameRooms(after, rooms);
  }

  lemma {:induction false} AddAllNoEmpty(rooms: RoomMap, names: seq<Room>, id: Id)
    requires NoEmptyRoom(rooms)
    ensures NoEmptyRoom(AddAll(rooms, names, id))
  {
    if names != [] {
      AddAllNoEmpty(rooms, names[..|names| - 1], id);
    }
  }

  /** Without empty rooms, the map is determined by the relation. */
  lemma SameRooms(a: RoomMap, b: RoomMap)
    requires NoEmptyRoom(a) && NoEmptyRoom(b) && forall r, c :: In(a, r, c) <==> In(b, r, c)
    ensures a == b
  {
    forall r
      ensures r in a ==> r in b && a[r] == b[r]
      ensures r in b ==> r in a
    {
      if r in a {
        var c :| c in a[r];
        assert In(a, r, c) && In(b, r, c);
        assert forall d :: d in a[r] <==> In(b, r, d);
      }
      if r in b {
        var c :| c in b[r];
        assert In(b, r, c) && In(a, r, c);
      }
    }
  }

  // ---- The tasks ----

  /** Where a call stands. `todo` is what is left of the rooms that `cleanup` found in `joined_rooms`. */
  datatype At =
    | JAdd(r: Room) | JMark(r: Room)
    | LRemove(r: Room) | LPrune(r: Room) | LUnmark(r: Room)
    | CLoop(todo: set<Room>) | CRemove(r: Room, todo: set<Room>) | CPrune(r: Room, todo: set<Room>)

  datatype Task = Task(conn: Id, at: At)

  datatype Call = Join(r: Room) | Leave(r: Room) | Cleanup

  /** `closed` is history: the connections whose cleanup has begun. */
  datatype State = State(rooms: RoomMap, joined: map<Id, set<Room>>, tasks: map<nat, Task>, closed: set<Id>)

  const NEW_STATE := State(map[], map[], map[], {})

  datatype Step = Begin(t: nat, conn: Id, call: Call) | Next(t: nat, pick: Room)

  function Joined(joined: map<Id, set<Room>>, c: Id): set<Room>
  {
    if c in joined then joined[c] else {}
  }

  predicate Can(s: State, step: Step)
  {
    match step
    case Begin(t, _, _) => t !in s.tasks
    case Next(t, pick) =>
      t in s.tasks && (s.tasks[t].at.CLoop? && s.tasks[t].at.todo != {} ==> pick in s.tasks[t].at.todo)
  }

  function Entry(joined: map<Id, set<Room>>, c: Id, call: Call): At
  {
    match call
    case Join(r) => JAdd(r)
    case Leave(r) => LRemove(r)
    case Cleanup => CLoop(Joined(joined, c))
  }

  /** Where a task goes next; `None` when its call returns. */
  function Goes(at: At, pick: Room): Option<At>
  {
    match at
    case JAdd(r) => Some(JMark(r))
    case JMark(_) => None
    case LRemove(r) => Some(LPrune(r))
    case LPrune(r) => Some(LUnmark(r))
    case LUnmark(_) => None
    case CLoop(todo) => if todo == {} then None else Some(CRemove(pick, todo))
    case CRemove(r, todo) => Some(CPrune(r, todo - {r}))
    case CPrune(_, todo) => Some(CLoop(todo))
  }

  function RoomsAfter(rooms: RoomMap, task: Task): RoomMap
  {
    match task.at
    case JAdd(r) => Add(rooms, r, task.conn)
    case LRemove(r) => RemoveId(rooms, r, task.conn)
    case CRemove(r, _) => RemoveId(rooms, r, task.conn)
    case LPrune(r) => Prune(rooms, r)
    case CPrune(r, _) => Prune(rooms, r)
    case _ => rooms
  }

  function JoinedAfter(joined: map<Id, set<Room>>, task: Task): map<Id, set<Room>>
  {
    match task.at
    case JMark(r) => joined[task.conn := Joined(joined, task.conn) + {r}]
    case LUnmark(r) => joined[task.conn := Joined(joined, task.conn) - {r}]
    case CLoop(todo) => if todo == {} then joined[task.conn := {}] else joined
    case _ => joined
  }

  function Do(s: State, step: Step): State
    requires Can(s, step)
  {
    match step
    case Begin(t, c, call) =>
      s.(tasks := s.tasks[t := Task(c, Entry(s.joined, c, call))],
         closed := if call.Cleanup? then s.closed + {c} else s.closed)
    case Next(t, pick) =>
      var task := s.tasks[t];
      var to := Goes(task.at, pick);
      State(RoomsAfter(s.rooms, task), JoinedAfter(s.joined, task),
            if to.Some? then s.tasks[t := task.(at := to.value)] else s.tasks - {t}, s.closed)
  }

  predicate Run(s: State, steps: seq<Step>, s': State)
    decreases |steps|
  {
    if steps == [] then s == s' else Can(s, steps[0]) && Run(Do(s, steps[0]), steps[1..], s')
  }

  // ---- The map refines the relation ----

  /** What a step does to the relation: `add` puts one pair in, the first half of a removal takes one pair out,
      and every other step, the pruning of an empty room included, leaves it as it is. */
  function Effect(relation: set<(Room, Id)>, s: State, step: Step): set<(Room, Id)>
    requires Can(s, step)
  {
    if step.Begin? then relation
    else
      var task := s.tasks[step.t];
      match task.at
      case JAdd(r) => relation + {(r, task.conn)}
      case LRemove(r) => relation - {(r, task.conn)}
      case CRemove(r, _) => relation - {(r, task.conn)}
      case _ => relation
  }

  lemma StepRefinesRelation(s: State, step: Step)
    requires Can(s, step)
    ensures Relation(Do(s, step).rooms) == Effect(Relation(s.rooms), s, step)
  {
    forall r: Room, id: Id
      ensures (r, id) in Relation(Do(s, step).rooms) <==> (r, id) in Effect(Relation(s.rooms), s, step)
    {
      RelationIn(s.rooms, r, id);
      RelationIn(Do(s, step).rooms, r, id);
    }
  }

  // ---- No empty room is left behind ----

  predicate Pruning(at: At, r: Room)
  {
    (at.LPrune? || at.CPrune?) && at.r == r
  }

  /** Every empty room that is still in the map has a remover between its two steps. */
  ghost predicate EmptyInv(s: State)
  {
    forall r :: r in s.rooms && s.rooms[r] == {} ==> exists t :: t in s.tasks && Pruning(s.tasks[t].at, r)
  }

  lemma EmptyStep(s: State, step: Step)
    requires EmptyInv(s) && Can(s, step)
    ensures EmptyInv(Do(s, step))
  {
    var s' := Do(s, step);
    forall r | r in s'.rooms && s'.rooms[r] == {}
      ensures exists t :: t in s'.tasks && Pruning(s'.tasks[t].at, r)
    {
      if r in s.rooms && s.rooms[r] == {} {
        var t :| t in s.tasks && Pruning(s.tasks[t].at, r);
        assert t in s'.tasks && s'.tasks[t] == s.tasks[t];
      } else {
        assert step.Next? && Pruning(s'.tasks[step.t].at, r);
      }
    }
  }

  lemma {:induction false} EmptyRun(s: State, steps: seq<Step>, s': State)
    requires EmptyInv(s) && Run(s, steps, s')
    ensures EmptyInv(s')
    decreases |steps|
  {
    if steps != [] {
      EmptyStep(s, steps[0]);
      EmptyRun(Do(s, steps[0]), steps[1..], s');
    }
  }

  /** In any interleaving, an empty room in the map has a remover between its two steps,
      so none is left when no call is under way. */
  lemma NoEmptyRoomWhenIdle(steps: seq<Step>, s: State)
    requires Run(NEW_STATE, steps, s)
    ensures EmptyInv(s)
    ensures s.tasks == map[] ==> forall r :: r in s.rooms ==> s.rooms[r] != {}
  {
    EmptyRun(NEW_STATE, steps, s);
  }

  // ---- Who is in which room ----

  /** A connection's own calls do not overlap; different connections interleave freely. */
  predicate Serial(s: State, step: Step)
  {
    step.Begin? ==> forall t :: t in s.tasks ==> s.tasks[t].conn != step.conn
  }

  predicate SerialRun(s: State, steps: seq<Step>, s': State)
    decreases |steps|
  {
    if steps == [] then s == s'
    else Can(s, steps[0]) && Serial(s, steps[0]) && SerialRun(Do(s, steps[0]), steps[1..], s')
  }

  predicate Concerns(call: Call, r: Room)
  {
    call.Cleanup? || call.r == r
  }

  /** The last call of `c` that concerns the room `r`, if `last` was the last one before. */
  function Latest(last: Option<Call>, step: Step, c: Id, r: Room): Option<Call>
  {
    if step.Begin? && step.conn == c && Concerns(step.call, r) then Some(step.call) else last
  }

  function LastCall(last: Option<Call>, steps: seq<Step>, c: Id, r: Room): Option<Call>
    decreases |steps|
  {
    if steps == [] then last else LastCall(Latest(last, steps[0], c, r), steps[1..], c, r)
  }

  ghost predicate Busy(s: State, c: Id)
  {
    exists t :: t in s.tasks && s.tasks[t].conn == c
  }

  predicate InCleanup(at: At)
  {
    at.CLoop? || at.CRemove? || at.CPrune?
  }

  /** Both sides say what is wanted. */
  predicate Settled(rooms: RoomMap, mine: set<Room>, c: Id, r: Room, want: bool)
  {
    In(rooms, r, c) == want && (r in mine) == want
  }

  /** While a connection's call is under way, only the room it works on may be out of step;
      during its cleanup the map holds it in exactly the rooms still to be done. */
  predicate TaskInv(rooms: RoomMap, mine: set<Room>, task: Task, r: Room, want: bool)
  {
    var c := task.conn;
    match task.at
    case JAdd(q) => if q == r then want else Settled(rooms, mine, c, r, want)
    case JMark(q) => if q == r then want && In(rooms, r, c) else Settled(rooms, mine, c, r, want)
    case LRemove(q) => if q == r then !want else Settled(rooms, mine, c, r, want)
    case LPrune(q) => if q == r then !want && !In(rooms, r, c) else Settled(rooms, mine, c, r, want)
    case LUnmark(q) => if q == r then !want && !In(rooms, r, c) else Settled(rooms, mine, c, r, want)
    case CLoop(todo) => !want && (In(rooms, r, c) <==> r in todo)
    case CRemove(q, todo) => q in todo && !want && (In(rooms, r, c) <==> r in todo)
    case CPrune(_, todo) => !want && (In(rooms, r, c) <==> r in todo)
  }

  predicate OneTaskEach(tasks: map<nat, Task>)
  {
    forall t, u :: t in tasks && u in tasks && t != u ==> tasks[t].conn != tasks[u].conn
  }

  ghost predicate RoomInv(s: State, c: Id, r: Room, want: bool)
  {
    && OneTaskEach(s.tasks)
    && (!Busy(s, c) ==> Settled(s.rooms, Joined(s.joined, c), c, r, want))
    && (forall t :: t in s.tasks && s.tasks[t].conn == c ==> TaskInv(s.rooms, Joined(s.joined, c), s.tasks[t], r, want))
  }

  lemma OwnStep(rooms: RoomMap, joined: map<Id, set<Room>>, task: Task, pick: Room, r: Room, want: bool)
    requires TaskInv(rooms, Joined(joined, task.conn), task, r, want)
    requires task.at.CLoop? && task.at.todo != {} ==> pick in task.at.todo
    ensures var rooms' := RoomsAfter(rooms, task);
            var mine' := Joined(JoinedAfter(joined, task), task.conn);
            match Goes(task.at, pick)
            case Some(at) => TaskInv(rooms', mine', task.(at := at), r, want)
            case None => Settled(rooms', mine', task.conn, r, want)
  {
  }

  /** A task touches only its own connection's memberships. */
  lemma OthersUntouched(rooms: RoomMap, joined: map<Id, set<Room>>, task: Task, c: Id, r: Room)
    requires c != task.conn
    ensures In(RoomsAfter(rooms, task), r, c) <==> In(rooms, r, c)
    ensures Joined(JoinedAfter(joined, task), c) == Joined(joined, c)
  {
  }

  lemma BeginStep(s: State, t: nat, d: Id, call: Call, c: Id, r: Room, last: Option<Call>)
    requires RoomInv(s, c, r, last == Some(Join(r)))
    requires Can(s, Begin(t, d, call)) && Serial(s, Begin(t, d, call))
    ensures RoomInv(Do(s, Begin(t, d, call)), c, r, Latest(last, Begin(t, d, call), c, r) == Some(Join(r)))
  {
    var s' := Do(s, Begin(t, d, call));
    assert t in s'.tasks && s'.tasks[t].conn == d;
    if c != d && Busy(s, c) {
      var u :| u in s.tasks && s.tasks[u].conn == c;
      assert u in s'.tasks && s'.tasks[u].conn == c;
    }
  }

  lemma NextStep(s: State, t: nat, pick: Room, c: Id, r: Room, want: bool)
    requires RoomInv(s, c, r, want) && Can(s, Next(t, pick))
    ensures RoomInv(Do(s, Next(t, pick)), c, r, want)
  {
    var task := s.tasks[t];
    if task.conn == c {
      OwnStep(s.rooms, s.joined, task, pick, r, want);
      StaysBusy(s, t, pick, c);
    } else {
      OthersUntouched(s.rooms, s.joined, task, c, r);
      StaysBusy(s, t, pick, c);
    }
  }

  lemma StaysBusy(s: State, t: nat, pick: Room, c: Id)
    requires Can(s, Next(t, pick))
    ensures Busy(s, c) && (c != s.tasks[t].conn || Goes(s.tasks[t].at, pick).Some?) ==> Busy(Do(s, Next(t, pick)), c)
  {
    var s' := Do(s, Next(t, pick));
    if Busy(s, c) && (c != s.tasks[t].conn || Goes(s.tasks[t].at, pick).Some?) {
      var u :| u in s.tasks && s.tasks[u].conn == c;
      assert u in s'.tasks && s'.tasks[u].conn == c;
    }
  }

  lemma {:induction false} RoomRun(s: State, steps: seq<Step>, s': State, c: Id, r: Room, last: Option<Call>)
    requires RoomInv(s, c, r, last == Some(Join(r))) && SerialRun(s, steps, s')
    ensures RoomInv(s', c, r, LastCall(last, steps, c, r) == Some(Join(r)))
    decreases |steps|
  {
    if steps != [] {
      match steps[0] {
        case Begin(t, d, call) => BeginStep(s, t, d, call, c, r, last);
        case Next(t, pick) => NextStep(s, t, pick, c, r, last == Some(Join(r)));
      }
      RoomRun(Do(s, steps[0]), steps[1..], s', c, r, Latest(last, steps[0], c, r));
    }
  }

  /** In every run in which a connection's own calls do not overlap, an idle connection is in a room, on both sides,
      if and only if the last of its calls that concerns the room (a join or leave of it, or a cleanup) is a join. */
  lemma InRoomIffLastCallJoins(steps: seq<Step>, s: State, c: Id, r: Room)
    requires SerialRun(NEW_STATE, steps, s) && !Busy(s, c)
    ensures In(s.rooms, r, c) <==> LastCall(None, steps, c, r) == Some(Join(r))
    ensures r in Joined(s.joined, c) <==> LastCall(None, steps, c, r) == Some(Join(r))
  {
    RoomRun(NEW_STATE, steps, s, c, r, None);
  }

  /** The connection's own list and the map agree. */
  ghost predicate Agree(rooms: RoomMap, mine: set<Room>, c: Id)
  {
    forall r :: r in mine <==> In(rooms, r, c)
  }

  /** In every such run, an idle connection is in exactly the rooms it lists, and one with a join or leave under way
      agrees about every room but the one that call is about. */
  lemma RoomsAgree(steps: seq<Step>, s: State)
    requires SerialRun(NEW_STATE, steps, s)
    ensures forall c :: !Busy(s, c) ==> Agree(s.rooms, Joined(s.joined, c), c)
    ensures forall t, r :: t in s.tasks && !InCleanup(s.tasks[t].at) && r != s.tasks[t].at.r ==>
              (r in Joined(s.joined, s.tasks[t].conn) <==> In(s.rooms, r, s.tasks[t].conn))
  {
    forall c | !Busy(s, c)
      ensures Agree(s.rooms, Joined(s.joined, c), c)
    {
      forall r ensures r in Joined(s.joined, c) <==> In(s.rooms, r, c) {
        InRoomIffLastCallJoins(steps, s, c, r);
      }
    }
    forall t, r | t in s.tasks && !InCleanup(s.tasks[t].at) && r != s.tasks[t].at.r
      ensures r in Joined(s.joined, s.tasks[t].conn) <==> In(s.rooms, r, s.tasks[t].conn)
    {
      RoomRun(NEW_STATE, steps, s, s.tasks[t].conn, r, None);
    }
  }

  // ---- After cleanup ----

  lemma {:induction false} LastCallConcat(last: Option<Call>, a: seq<Step>, b: seq<Step>, c: Id, r: Room)
    ensures LastCall(last, a + b, c, r) == LastCall(LastCall(last, a, c, r), b, c, r)
    decreases |a|
  {
    if a == [] {
      assert a + b == b;
    } else {
      LastCallConcat(Latest(last, a[0], c, r), a[1..], b, c, r);
      assert (a + b)[1..] == a[1..] + b && (a + b)[0] == a[0];
    }
  }

  /** A join found among later calls is found whatever came before, short of a join. */
  lemma {:induction false} JoinFound(x: Option<Call>, y: Option<Call>, steps: seq<Step>, c: Id, r: Room)
    requires x != Some(Join(r)) && y != Some(Join(r))
    ensures LastCall(x, steps, c, r) == Some(Join(r)) <==> LastCall(y, steps, c, r) == Some(Join(r))
    decreases |steps|
  {
    if steps != [] {
      var x', y' := Latest(x, steps[0], c, r), Latest(y, steps[0], c, r);
      if x' != y' {
        JoinFound(x', y', steps[1..], c, r);
      }
    }
  }

  /** After a cleanup an idle connection is in a room if and only if, of the calls begun after that cleanup, the last
      that concerns the room is a join. */
  lemma AfterCleanup(before: seq<Step>, t: nat, after: seq<Step>, s: State, c: Id, r: Room)
    requires SerialRun(NEW_STATE, before + [Begin(t, c, Cleanup)] + after, s) && !Busy(s, c)
    ensures In(s.rooms, r, c) <==> LastCall(None, after, c, r) == Some(Join(r))
  {
    var cleanup := [Begin(t, c, Cleanup)];
    InRoomIffLastCallJoins(before + cleanup + after, s, c, r);
    LastCallConcat(None, before + cleanup, after, c, r);
    LastCallConcat(None, before, cleanup, c, r);
    assert cleanup[1..] == [];
    assert LastCall(None, before + cleanup, c, r) == Some(Cleanup);
    JoinFound(Some(Cleanup), None, after, c, r);
  }

  lemma {:induction false} NoJoinFound(last: Option<Call>, steps: seq<Step>, c: Id, r: Room)
    requires last != Some(Join(r)) && forall i :: 0 <= i < |steps| ==> !(steps[i].Begin? && steps[i].conn == c && steps[i].call == Join(r))
    ensures LastCall(last, steps, c, r) != Some(Join(r))
    decreases |steps|
  {
    if steps != [] {
      assert !(steps[0].Begin? && steps[0].conn == c && steps[0].call == Join(r));
      NoJoinFound(Latest(last, steps[0], c, r), steps[1..], c, r);
    }
  }

  /** So a connection that joins nothing after its cleanup is in no room at all. */
  lemma NoRoomAfterCleanup(before: seq<Step>, t: nat, after: seq<Step>, s: State, c: Id)
    requires SerialRun(NEW_STATE, before + [Begin(t, c, Cleanup)] + after, s) && !Busy(s, c)
    requires forall i :: 0 <= i < |after| ==> !(after[i].Begin? && after[i].conn == c && after[i].call.Join?)
    ensures forall r :: !In(s.rooms, r, c)
  {
    forall r ensures !In(s.rooms, r, c) {
      NoJoinFound(None, after, c, r);
      AfterCleanup(before, t, after, s, c, r);
    }
  }

  /** A join that comes after the connection's cleanup is over, completed undisturbed, leaves the connection in the room
      with no cleanup left to take it out. */
  lemma JoinAfterCleanupStays(s: State, t: nat, c: Id, r: Room)
    requires c in s.closed && !Busy(s, c) && t !in s.tasks
    ensures exists s' :: Run(s, [Begin(t, c, Join(r)), Next(t, r), Next(t, r)], s')
              && In(s'.rooms, r, c) && c in s'.closed && s'.tasks == s.tasks
  {
    var s1 := Do(s, Begin(t, c, Join(r)));
    var s2 := Do(s1, Next(t, r));
    var s3 := Do(s2, Next(t, r));
    assert [Begin(t, c, Join(r)), Next(t, r), Next(t, r)][1..] == [Next(t, r), Next(t, r)];
    assert Run(s2, [Next(t, r)], s3);
    assert Run(s1, [Next(t, r), Next(t, r)], s3);
    assert s3.tasks == s.tasks;
    assert In(s3.rooms, r, c);
  }

  /** Serialisation is needed: a join that began before the cleanup and finishes after it leaves the connection in the
      room with no call under way, although its last call is the cleanup. */
  lemma OverlapLeavesMember(c: Id, r: Room) returns (s: State)
    ensures Run(NEW_STATE, Overlap(c, r), s) && s.tasks == map[]
    ensures LastCall(None, Overlap(c, r), c, r) == Some(Cleanup) && In(s.rooms, r, c)
  {
    OverlapLast(c, r);
    var s1 := Do(NEW_STATE, Begin(0, c, Join(r)));
    var s2 := Do(s1, Begin(1, c, Cleanup));
    var s3 := Do(s2, Next(1, r));
    s := OverlapEnds(s3, c, r);
    RunFirst(s2, Next(1, r), [Next(0, r)] + [Next(0, r)], s);
    RunFirst(s1, Begin(1, c, Cleanup), [Next(1, r)] + ([Next(0, r)] + [Next(0, r)]), s);
    RunFirst(NEW_STATE, Begin(0, c, Join(r)), [Begin(1, c, Cleanup)] + ([Next(1, r)] + ([Next(0, r)] + [Next(0, r)])), s);
  }

  /** The rest of a join. */
  lemma OverlapEnds(s: State, c: Id, r: Room) returns (s': State)
    requires s.tasks == map[0 := Task(c, JAdd(r))]
    ensures Run(s, [Next(0, r)] + [Next(0, r)], s') && s'.tasks == map[] && In(s'.rooms, r, c)
  {
    var s1 := Do(s, Next(0, r));
    s' := Do(s1, Next(0, r));
    assert [Next(0, r)][1..] == [];
    assert Run(s1, [Next(0, r)], s');
    RunFirst(s, Next(0, r), [Next(0, r)], s');
  }

  function Overlap(c: Id, r: Room): seq<Step>
  {
    [Begin(0, c, Join(r))] + ([Begin(1, c, Cleanup)] + ([Next(1, r)] + ([Next(0, r)] + [Next(0, r)])))
  }

  lemma OverlapLast(c: Id, r: Room)
    ensures LastCall(None, Overlap(c, r), c, r) == Some(Cleanup)
  {
    LastCallConcat(None, [Begin(0, c, Join(r))], [Begin(1, c, Cleanup)] + ([Next(1, r)] + ([Next(0, r)] + [Next(0, r)])), c, r);
    LastCallConcat(Some(Join(r)), [Begin(1, c, Cleanup)], [Next(1, r)] + ([Next(0, r)] + [Next(0, r)]), c, r);
    LastCallConcat(Some(Cleanup), [Next(1, r)], [Next(0, r)] + [Next(0, r)], c, r);
    LastCallConcat(Some(Cleanup), [Next(0, r)], [Next(0, r)], c, r);
  }

  lemma RunFirst(s: State, step: Step, steps: seq<Step>, s': State)
    requires Can(s, step) && Run(Do(s, step), steps, s')
    ensures Run(s, [step] + steps, s')
  {
    assert ([step] + steps)[1..] == steps;
  }
}
