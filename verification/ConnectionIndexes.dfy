/** The indexes of connections over all namespaces ever registered with a server runtime, between the stretches
    that insert a connection into them and remove it again. */
module ConnectionIndexes {
  type Id = nat

  /** One namespace's `connections` (its keys) and `connection_ids`. */
  datatype Space = Space(connections: set<Id>, ids: set<Id>)

  /** `spaces` holds every namespace ever registered, also those removed from the path map;
      `home` is history: the namespace each connection was created for. Ids come from one global counter. */
  datatype State = State(spaces: seq<Space>, runtimeIds: set<Id>, home: map<Id, nat>, next: Id)

  const NEW_STATE := State([], {}, map[], 0)

  datatype Step = Register | Create(space: nat) | Insert(id: Id) | Remove(id: Id)

  predicate Can(s: State, step: Step)
  {
    match step
    case Register => true
    case Create(space) => space < |s.spaces|
    case Insert(id) => id in s.home && s.home[id] < |s.spaces|
    case Remove(id) => id in s.home && s.home[id] < |s.spaces|
  }

  /** `insert_connection`: the map, the runtime's ids, the namespace's ids. */
  function InsertConnection(s: State, id: Id): State
    requires Can(s, Insert(id))
  {
    var n := s.home[id];
    var s1 := s.(spaces := s.spaces[n := s.spaces[n].(connections := s.spaces[n].connections + {id})]);
    var s2 := s1.(runtimeIds := s1.runtimeIds + {id});
    s2.(spaces := s2.spaces[n := s2.spaces[n].(ids := s2.spaces[n].ids + {id})])
  }

  function RemoveConnection(s: State, id: Id): State
    requires Can(s, Remove(id))
  {
    var n := s.home[id];
    var s1 := s.(spaces := s.spaces[n := s.spaces[n].(connections := s.spaces[n].connections - {id})]);
    var s2 := s1.(runtimeIds := s1.runtimeIds - {id});
    s2.(spaces := s2.spaces[n := s2.spaces[n].(ids := s2.spaces[n].ids - {id})])
  }

  function Do(s: State, step: Step): State
    requires Can(s, step)
  {
    match step
    case Register => s.(spaces := s.spaces + [Space({}, {})])
    case Create(space) => s.(home := s.home[s.next := space], next := s.next + 1)
    case Insert(id) => InsertConnection(s, id)
    case Remove(id) => RemoveConnection(s, id)
  }

  predicate Run(s: State, steps: seq<Step>, s': State)
    decreases |steps|
  {
    if steps == [] then s == s' else Can(s, steps[0]) && Run(Do(s, steps[0]), steps[1..], s')
  }

  ghost predicate Inv(s: State)
  {
    && (forall id :: id in s.home ==> id < s.next && s.home[id] < |s.spaces|)
    && (forall n :: 0 <= n < |s.spaces| ==> s.spaces[n].ids == s.spaces[n].connections)
    && (forall n, id :: 0 <= n < |s.spaces| && id in s.spaces[n].connections ==>
          id in s.home && s.home[id] == n && id in s.runtimeIds)
    && (forall id :: id in s.runtimeIds ==> id in s.home && id in s.spaces[s.home[id]].connections)
  }

  lemma InvStep(s: State, step: Step)
    requires Inv(s) && Can(s, step)
    ensures Inv(Do(s, step))
  {
  }

  lemma {:induction false} InvRun(s: State, steps: seq<Step>, s': State)
    requires Inv(s) && Run(s, steps, s')
    ensures Inv(s')
    decreases |steps|
  {
    if steps != [] {
      InvStep(s, steps[0]);
      InvRun(Do(s, steps[0]), steps[1..], s');
    }
  }

  /** The sum of the namespaces' connection counts. */
  function TotalCount(spaces: seq<Space>): nat
  {
    if spaces == [] then 0 else TotalCount(spaces[..|spaces| - 1]) + |spaces[|spaces| - 1].connections|
  }

  /** The runtime's ids that belong to the first `n` namespaces. */
  function Below(s: State, n: nat): set<Id>
  {
    set id | id in s.runtimeIds && id in s.home && s.home[id] < n
  }

  lemma BelowNext(s: State, n: nat)
    requires Inv(s) && n < |s.spaces|
    ensures Below(s, n + 1) == Below(s, n) + s.spaces[n].connections
    ensures Below(s, n) !! s.spaces[n].connections
  {
  }

  lemma {:induction false} CountBelow(s: State, n: nat)
    requires Inv(s) && n <= |s.spaces|
    ensures |Below(s, n)| == TotalCount(s.spaces[..n])
  {
    if n > 0 {
      CountBelow(s, n - 1);
      assert s.spaces[..n][..n - 1] == s.spaces[..n - 1];
      BelowNext(s, n - 1);
    } else {
      assert Below(s, 0) == {};
    }
  }

  lemma Disjoint(s: State, m: nat, n: nat)
    requires Inv(s) && m < n < |s.spaces|
    ensures s.spaces[m].connections !! s.spaces[n].connections
  {
    var shared := s.spaces[m].connections * s.spaces[n].connections;
    forall id | id in s.spaces[m].connections
      ensures id !in shared
    {
      assert s.home[id] == m;
    }
    assert shared == {};
  }

  /** Conservation: each namespace's ids are the keys of its map, different namespaces share no connection, the
      runtime's ids are the union over all namespaces, and its count is the sum of theirs. */
  lemma ConnectionsConserved(steps: seq<Step>, s: State)
    requires Run(NEW_STATE, steps, s)
    ensures forall n :: 0 <= n < |s.spaces| ==> s.spaces[n].ids == s.spaces[n].connections
    ensures forall m, n :: 0 <= m < n < |s.spaces| ==> s.spaces[m].connections !! s.spaces[n].connections
    ensures forall id :: id in s.runtimeIds <==> exists n :: 0 <= n < |s.spaces| && id in s.spaces[n].connections
    ensures |s.runtimeIds| == TotalCount(s.spaces)
  {
    InvRun(NEW_STATE, steps, s);
    forall m, n | 0 <= m < n < |s.spaces|
      ensures s.spaces[m].connections !! s.spaces[n].connections
    {
      Disjoint(s, m, n);
    }
    CountBelow(s, |s.spaces|);
    assert s.spaces[..|s.spaces|] == s.spaces;
    assert Below(s, |s.spaces|) == s.runtimeIds;
    forall id | id in s.runtimeIds
      ensures exists n :: 0 <= n < |s.spaces| && id in s.spaces[n].connections
    {
      assert id in s.spaces[s.home[id]].connections;
    }
  }
}
