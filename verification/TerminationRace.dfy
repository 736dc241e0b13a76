/** How much of handleConnectionStateChange (PeerSession.cpp) has to be one step for a termination to close
    its own session. The handler takes no lock: the guards, the write of the state and the termination
    callback can be separated by other threads. Sessions here are started when created, and a handler on its
    way keeps its session allocated. */
module TerminationRace {
  import opened PeerSession

  datatype Object = Object(id: nat, state: ConnectionState, isClosed: bool)

  /** A thread inside the handler: past the guards, or past the write with the callback to come. */
  datatype Stage = Checked(r: nat, to: ConnectionState) | Terminating(r: nat)

  datatype State = State(registry: map<nat, nat>, objects: seq<Object>, stages: map<nat, Stage>)

  datatype Action =
    | Create(id: nat)
    | Check(t: nat, r: nat, to: ConnectionState)
    | Write(t: nat)
    | Accept(t: nat, r: nat, to: ConnectionState)
    | Callback(t: nat)

  predicate Enabled(s: State, a: Action) {
    match a
    case Create(id) => id !in s.registry
    case Check(t, r, to) => Accepts(s, t, r, to)
    case Accept(t, r, to) => Accepts(s, t, r, to)
    case Write(t) => t in s.stages && s.stages[t].Checked? && s.stages[t].r < |s.objects|
    case Callback(t) => t in s.stages && s.stages[t].Terminating? && s.stages[t].r < |s.objects|
  }

  predicate Accepts(s: State, t: nat, r: nat, to: ConnectionState) {
    t !in s.stages && r < |s.objects| && !s.objects[r].isClosed && IsValidStateTransition(s.objects[r].state, to)
  }

  function Written(s: State, t: nat, r: nat, to: ConnectionState): State
    requires r < |s.objects|
  {
    State(s.registry, s.objects[r := s.objects[r].(state := to)],
          if to.Failed? || to.Closed? then s.stages[t := Terminating(r)] else s.stages - {t})
  }

  /** The session that `closeSession` of this id would close. */
  predicate Holder(s: State, id: nat, r: nat) {
    id in s.registry && s.registry[id] == r
  }

  function Closing(s: State, id: nat): State {
    if id !in s.registry || s.registry[id] >= |s.objects| then s
    else s.(registry := s.registry - {id},
            objects := s.objects[s.registry[id] := s.objects[s.registry[id]].(isClosed := true)])
  }

  function Act(s: State, a: Action): State
    requires Enabled(s, a)
  {
    match a
    case Create(id) => s.(registry := s.registry[id := |s.objects|], objects := s.objects + [Object(id, New, false)])
    case Check(t, r, to) => s.(stages := s.stages[t := Checked(r, to)])
    case Write(t) => Written(s, t, s.stages[t].r, s.stages[t].to)
    case Accept(t, r, to) => Written(s, t, r, to)
    case Callback(t) => Closing(s, s.objects[s.stages[t].r].id).(stages := s.stages - {t})
  }

  // ----- guards and write together -----

  predicate Ended(state: ConnectionState) {
    state.Failed? || state.Closed?
  }

  /** Every pending callback is the only one for a session that is still in the registry under its id. */
  ghost predicate Owned(s: State) {
    && (forall id | id in s.registry :: s.registry[id] < |s.objects| && s.objects[s.registry[id]].id == id)
    && (forall r | 0 <= r < |s.objects| && !s.objects[r].isClosed :: Holder(s, s.objects[r].id, r))
    && (forall t | t in s.stages :: s.stages[t].Terminating? && s.stages[t].r < |s.objects|)
    && (forall t | t in s.stages ::
          Ended(s.objects[s.stages[t].r].state) && Holder(s, s.objects[s.stages[t].r].id, s.stages[t].r))
    && (forall t, u | t in s.stages && u in s.stages && t != u :: s.stages[t].r != s.stages[u].r)
  }

  ghost predicate ValidRun(s: State, actions: seq<Action>)
    decreases |actions|
  {
    actions == [] || (Enabled(s, actions[0]) && ValidRun(Act(s, actions[0]), actions[1..]))
  }

  function Run(s: State, actions: seq<Action>): State
    decreases |actions|
  {
    if actions == [] then s
    else if !Enabled(s, actions[0]) then s
    else Run(Act(s, actions[0]), actions[1..])
  }

  lemma CreateOwned(s: State, id: nat)
    requires Owned(s) && id !in s.registry
    ensures Owned(Act(s, Create(id)))
  {
  }

  lemma AcceptOwned(s: State, t: nat, r: nat, to: ConnectionState)
    requires Owned(s) && Accepts(s, t, r, to)
    ensures Owned(Written(s, t, r, to))
  {
    var s' := Written(s, t, r, to);
    assert forall u | u in s.stages :: s.stages[u].r != r;
    assert Holder(s, s.objects[r].id, r);
    forall u | u in s'.stages
      ensures s'.stages[u].Terminating? && s'.stages[u].r < |s'.objects|
      ensures Ended(s'.objects[s'.stages[u].r].state) && Holder(s', s'.objects[s'.stages[u].r].id, s'.stages[u].r)
    {
      if u != t {
        assert s'.stages[u] == s.stages[u];
      }
    }
  }

  lemma CallbackOwned(s: State, t: nat)
    requires Owned(s) && Enabled(s, Callback(t))
    ensures Owned(Act(s, Callback(t)))
  {
    var r := s.stages[t].r;
    var s' := Act(s, Callback(t));
    assert s' == State(s.registry - {s.objects[r].id}, s.objects[r := s.objects[r].(isClosed := true)], s.stages - {t});
    forall u | u in s'.stages
      ensures Holder(s', s'.objects[s'.stages[u].r].id, s'.stages[u].r)
    {
      assert s.stages[u].r != r && Holder(s, s.objects[s.stages[u].r].id, s.stages[u].r);
    }
  }

  lemma OwnedStep(s: State, a: Action)
    requires Owned(s) && Enabled(s, a) && !a.Check?
    ensures Owned(Act(s, a))
  {
    match a
    case Create(id) => CreateOwned(s, id);
    case Accept(t, r, to) => AcceptOwned(s, t, r, to);
    case Callback(t) => CallbackOwned(s, t);
    case Write(t) =>
  }

  /** If guards and write are one step, the callback may come arbitrarily late: whenever it runs, its
      session is still the holder of its id, so the session it closes is its own. */
  lemma {:induction false} LateCallbackClosesItsOwnSession(s: State, actions: seq<Action>, t: nat)
    requires Owned(s) && ValidRun(s, actions)
    requires forall i | 0 <= i < |actions| :: !actions[i].Check?
    ensures var s' := Run(s, actions);
            Owned(s') && (Enabled(s', Callback(t)) ==> Holder(s', s'.objects[s'.stages[t].r].id, s'.stages[t].r))
    decreases |actions|
  {
    if actions != [] {
      OwnedStep(s, actions[0]);
      LateCallbackClosesItsOwnSession(Act(s, actions[0]), actions[1..], t);
    }
  }

  // ----- guards and write apart -----

  /** If another thread can come between guards and write, a termination can close a later session that
      reuses the id: for every connected session, two threads reporting its closure at the same time. */
  lemma SplitHandlerClosesALaterSession(s: State, id: nat, r: nat)
    requires Owned(s) && s.stages == map[] && r < |s.objects|
    requires s.objects[r] == Object(id, Connected, false)
    ensures var checks := [Check(0, r, Closed), Check(1, r, Closed), Write(0)];
            var reuse := [Callback(0), Create(id)];
            var late := [Write(1), Callback(1)];
            var later := |s.objects|;
            var before := Run(Run(s, checks), reuse);
            var after := Run(before, late);
            && ValidRun(s, checks) && ValidRun(Run(s, checks), reuse) && ValidRun(before, late)
            && later < |before.objects| == |after.objects|
            && Holder(before, id, later) && !before.objects[later].isClosed
            && !Holder(after, id, later) && after.objects[later].isClosed
  {
    BothPassTheGuards(s, id, r);
    var checked := Run(s, [Check(0, r, Closed), Check(1, r, Closed), Write(0)]);
    IdIsReused(checked, id, r);
    LateClosure(Run(checked, [Callback(0), Create(id)]), id, r, |s.objects|);
  }

  lemma BothPassTheGuards(s: State, id: nat, r: nat)
    requires Owned(s) && s.stages == map[] && r < |s.objects|
    requires s.objects[r] == Object(id, Connected, false)
    ensures var checks := [Check(0, r, Closed), Check(1, r, Closed), Write(0)];
            && ValidRun(s, checks)
            && Run(s, checks) == State(s.registry, s.objects[r := Object(id, Closed, false)],
                                       map[0 := Terminating(r), 1 := Checked(r, Closed)])
            && Holder(s, id, r)
  {
    var s1 := Act(s, Check(0, r, Closed));
    var s2 := Act(s1, Check(1, r, Closed));
    RunOne(s, Check(0, r, Closed), [Check(1, r, Closed), Write(0)]);
    RunOne(s1, Check(1, r, Closed), [Write(0)]);
    RunOne(s2, Write(0), []);
    FirstWrite(s2, id, r);
  }

  lemma FirstWrite(s: State, id: nat, r: nat)
    requires s.stages == map[0 := Checked(r, Closed), 1 := Checked(r, Closed)]
    requires r < |s.objects| && s.objects[r] == Object(id, Connected, false)
    ensures Act(s, Write(0)) == State(s.registry, s.objects[r := Object(id, Closed, false)],
                                      map[0 := Terminating(r), 1 := Checked(r, Closed)])
  {
  }

  lemma IdIsReused(s: State, id: nat, r: nat)
    requires s.stages == map[0 := Terminating(r), 1 := Checked(r, Closed)]
    requires r < |s.objects| && Holder(s, id, r) && s.objects[r] == Object(id, Closed, false)
    ensures var reuse := [Callback(0), Create(id)];
            && ValidRun(s, reuse)
            && Run(s, reuse) == State(s.registry[id := |s.objects|],
                                      s.objects[r := Object(id, Closed, true)] + [Object(id, New, false)],
                                      map[1 := Checked(r, Closed)])
  {
    var s1 := State(s.registry - {id}, s.objects[r := Object(id, Closed, true)], map[1 := Checked(r, Closed)]);
    assert Act(s, Callback(0)) == s1;
    RunOne(s, Callback(0), [Create(id)]);
    RunOne(s1, Create(id), []);
    assert (s.registry - {id})[id := |s.objects|] == s.registry[id := |s.objects|];
  }

  lemma LateClosure(s: State, id: nat, r: nat, later: nat)
    requires s.stages == map[1 := Checked(r, Closed)] && Holder(s, id, later)
    requires r < |s.objects| && later < |s.objects| && r != later && s.objects[r].id == id
    ensures var late := [Write(1), Callback(1)];
            && ValidRun(s, late)
            && Run(s, late) == State(s.registry - {id},
                                     s.objects[r := s.objects[r].(state := Closed)]
                                              [later := s.objects[later].(isClosed := true)], map[])
  {
    RunOne(s, Write(1), [Callback(1)]);
    RunOne(Act(s, Write(1)), Callback(1), []);
    assert s.stages[1 := Terminating(r)] - {1} == map[];
  }

  lemma RunOne(s: State, a: Action, rest: seq<Action>)
    requires Enabled(s, a)
    ensures Run(s, [a] + rest) == Run(Act(s, a), rest)
    ensures ValidRun(s, [a] + rest) <==> ValidRun(Act(s, a), rest)
  {
    assert ([a] + rest)[1..] == rest;
  }
}
