/** The three kinds of mutex of the signalling core and the order in which its calls take them
    (SessionManager.cpp, PeerSession.cpp, Dispatcher.cpp). */
module Locks {

  datatype Lock = Registry | Session(id: nat) | Dispatcher

  /** `Touch` is an access to what the lock guards: the registry's map, a session's peer and sink, the queue. */
  datatype Op = Acquire(lock: Lock) | Release(lock: Lock) | Touch(lock: Lock)

  function Rank(l: Lock): nat {
    match l
    case Registry => 0
    case Session(_) => 1
    case Dispatcher => 2
  }

  // ----- the lock operations of each call -----

  const POST := [Acquire(Dispatcher), Touch(Dispatcher), Release(Dispatcher)]

  /** `n` peer callbacks for descriptions or candidates: each posts and takes no session lock. */
  function Posts(n: nat): seq<Op> {
    if n == 0 then [] else POST + Posts(n - 1)
  }

  /** start, attachSignalStream, setRemoteDescription, addIceCandidate and close: the peer library may
      call back while they run. */
  function SessionCall(id: nat, n: nat): seq<Op> {
    [Acquire(Session(id))] + (([Touch(Session(id))] + Posts(n)) + [Release(Session(id))])
  }

  /** createSession, getSession, and closeSession of an unknown id. */
  const LOOKUP := [Acquire(Registry), Touch(Registry), Release(Registry)]

  /** closeSession: find the session, close it, then erase it, which may run its destructor and close it again. */
  function CloseSession(id: nat, n: nat, lastReference: bool): seq<Op> {
    [Acquire(Registry)] + (Closing(id, n, lastReference) + [Release(Registry)])
  }

  function Closing(id: nat, n: nat, lastReference: bool): seq<Op> {
    ([Touch(Registry)] + SessionCall(id, n)) +
    ([Touch(Registry)] + if lastReference then SessionCall(id, 0) else [])
  }

  /** What a thread may do while it holds nothing: a post or a worker's pop, a registry lookup, a session call,
      or closing a session. handleConnectionStateChange takes no lock itself; it posts or closes. */
  datatype Call =
    | PostOrPop
    | Lookup
    | OnSession(id: nat, callbacks: nat)
    | Close(id: nat, callbacks: nat, lastReference: bool)

  function OpsOf(c: Call): seq<Op> {
    match c
    case PostOrPop => POST
    case Lookup => LOOKUP
    case OnSession(id, n) => SessionCall(id, n)
    case Close(id, n, last) => CloseSession(id, n, last)
  }

  function Program(calls: seq<Call>): seq<Op> {
    if calls == [] then [] else OpsOf(calls[0]) + Program(calls[1..])
  }

  // ----- ordered programs -----

  function Top(held: seq<Lock>): int {
    if held == [] then -1 else Rank(held[|held| - 1])
  }

  /** Locks are taken in rising rank, released in reverse order, and all given back at the end; what a lock
      guards is accessed only while it is held. */
  predicate Ordered(held: seq<Lock>, ops: seq<Op>)
    decreases |ops|
  {
    if ops == [] then held == []
    else
      match ops[0]
      case Acquire(l) => Rank(l) > Top(held) && Ordered(held + [l], ops[1..])
      case Release(l) => held != [] && held[|held| - 1] == l && Ordered(held[..|held| - 1], ops[1..])
      case Touch(l) => l in held && Ordered(held, ops[1..])
  }

  /** `ops` brings `held` back to itself. */
  ghost predicate Neutral(held: seq<Lock>, ops: seq<Op>) {
    forall rest :: Ordered(held, rest) ==> Ordered(held, ops + rest)
  }

  lemma NeutralJoin(held: seq<Lock>, a: seq<Op>, b: seq<Op>)
    requires Neutral(held, a) && Neutral(held, b)
    ensures Neutral(held, a + b)
  {
    forall rest | Ordered(held, rest)
      ensures Ordered(held, (a + b) + rest)
    {
      assert Ordered(held, a + (b + rest));
      assert (a + b) + rest == a + (b + rest);
    }
  }

  /** A critical section around something neutral is neutral. */
  lemma NeutralSection(held: seq<Lock>, l: Lock, body: seq<Op>)
    requires Rank(l) > Top(held) && Neutral(held + [l], body)
    ensures Neutral(held, [Acquire(l)] + (body + [Release(l)]))
  {
    forall rest | Ordered(held, rest)
      ensures Ordered(held, [Acquire(l)] + (body + [Release(l)]) + rest)
    {
      var inner := held + [l];
      var tail := [Release(l)] + rest;
      assert inner[..|inner| - 1] == held && tail[1..] == rest;
      assert Ordered(inner, tail);
      assert Ordered(inner, body + tail);
      var whole := [Acquire(l)] + (body + [Release(l)]) + rest;
      assert whole[1..] == body + tail;
    }
  }

  lemma NeutralNothing(held: seq<Lock>)
    ensures Neutral(held, [])
  {
    forall rest | Ordered(held, rest)
      ensures Ordered(held, [] + rest)
    {
      assert [] + rest == rest;
    }
  }

  lemma NeutralTouch(held: seq<Lock>, l: Lock)
    requires l in held
    ensures Neutral(held, [Touch(l)])
  {
    forall rest | Ordered(held, rest)
      ensures Ordered(held, [Touch(l)] + rest)
    {
      assert ([Touch(l)] + rest)[1..] == rest;
    }
  }

  lemma {:induction false} PostsNeutral(held: seq<Lock>, n: nat)
    requires Top(held) < 2
    ensures Neutral(held, Posts(n))
  {
    NeutralNothing(held);
    if n > 0 {
      NeutralTouch(held + [Dispatcher], Dispatcher);
      NeutralSection(held, Dispatcher, [Touch(Dispatcher)]);
      assert POST == [Acquire(Dispatcher)] + ([Touch(Dispatcher)] + [Release(Dispatcher)]);
      PostsNeutral(held, n - 1);
      NeutralJoin(held, POST, Posts(n - 1));
    }
  }

  lemma SessionCallNeutral(held: seq<Lock>, id: nat, n: nat)
    requires Top(held) < 1
    ensures Neutral(held, SessionCall(id, n))
  {
    var inner := held + [Session(id)];
    NeutralTouch(inner, Session(id));
    PostsNeutral(inner, n);
    NeutralJoin(inner, [Touch(Session(id))], Posts(n));
    NeutralSection(held, Session(id), [Touch(Session(id))] + Posts(n));
  }

  lemma CallNeutral(c: Call)
    ensures Neutral([], OpsOf(c))
  {
    match c
    case PostOrPop =>
      PostsNeutral([], 1);
      assert Posts(0) == [] && Posts(1) == POST;
    case Lookup =>
      NeutralTouch([Registry], Registry);
      assert [] + [Registry] == [Registry];
      NeutralSection([], Registry, [Touch(Registry)]);
      assert LOOKUP == [Acquire(Registry)] + ([Touch(Registry)] + [Release(Registry)]);
    case OnSession(id, n) => SessionCallNeutral([], id, n);
    case Close(id, n, last) =>
      ClosingNeutral(id, n, last);
      assert [] + [Registry] == [Registry];
      NeutralSection([], Registry, Closing(id, n, last));
  }

  lemma ClosingNeutral(id: nat, n: nat, last: bool)
    ensures Neutral([Registry], Closing(id, n, last))
  {
    var held := [Registry];
    var destroy := if last then SessionCall(id, 0) else [];
    NeutralTouch(held, Registry);
    SessionCallNeutral(held, id, n);
    SessionCallNeutral(held, id, 0);
    NeutralNothing(held);
    NeutralJoin(held, [Touch(Registry)], SessionCall(id, n));
    NeutralJoin(held, [Touch(Registry)], destroy);
    NeutralJoin(held, [Touch(Registry)] + SessionCall(id, n), [Touch(Registry)] + destroy);
  }

  /** Every thread of the signalling core takes its locks in the order registry, session, dispatcher. */
  lemma {:induction false} ProgramsAreOrdered(calls: seq<Call>)
    ensures Ordered([], Program(calls))
  {
    if calls != [] {
      ProgramsAreOrdered(calls[1..]);
      CallNeutral(calls[0]);
    }
  }

  // ----- threads running together -----

  datatype Thread = Thread(held: seq<Lock>, ops: seq<Op>)

  type System = seq<Thread>

  ghost predicate Taken(s: System, l: Lock) {
    exists j | 0 <= j < |s| :: l in s[j].held
  }

  /** Thread `i` has something to do and is not waiting for a lock that someone, itself included, holds. */
  ghost predicate CanStep(s: System, i: nat) {
    i < |s| && s[i].ops != [] && (s[i].ops[0].Acquire? ==> !Taken(s, s[i].ops[0].lock))
  }

  function Without(held: seq<Lock>, l: Lock): seq<Lock> {
    if held == [] then []
    else if held[|held| - 1] == l then held[..|held| - 1]
    else Without(held[..|held| - 1], l) + [held[|held| - 1]]
  }

  function Stepped(t: Thread): Thread
    requires t.ops != []
  {
    match t.ops[0]
    case Acquire(l) => Thread(t.held + [l], t.ops[1..])
    case Release(l) => Thread(Without(t.held, l), t.ops[1..])
    case Touch(_) => Thread(t.held, t.ops[1..])
  }

  /** A run is the sequence of threads that move. */
  ghost predicate ValidRun(s: System, moves: seq<nat>)
    decreases |moves|
  {
    moves == [] || (CanStep(s, moves[0]) && ValidRun(s[moves[0] := Stepped(s[moves[0]])], moves[1..]))
  }

  function Run(s: System, moves: seq<nat>): System
    decreases |moves|
  {
    if moves == [] then s
    else if moves[0] >= |s| || s[moves[0]].ops == [] then s
    else Run(s[moves[0] := Stepped(s[moves[0]])], moves[1..])
  }

  ghost predicate Disciplined(s: System) {
    && (forall i | 0 <= i < |s| :: Ordered(s[i].held, s[i].ops) && Rising(s[i].held))
    && (forall i, j, l | 0 <= i < j < |s| && l in s[i].held :: l !in s[j].held)
  }

  predicate Rising(held: seq<Lock>) {
    forall i, j | 0 <= i < j < |held| :: Rank(held[i]) < Rank(held[j])
  }

  lemma DisciplinedStep(s: System, i: nat)
    requires Disciplined(s) && CanStep(s, i)
    ensures Disciplined(s[i := Stepped(s[i])])
  {
    var t, t' := s[i], Stepped(s[i]);
    assert Ordered(t'.held, t'.ops) && Rising(t'.held);
    forall l | l in t'.held
      ensures forall j | 0 <= j < |s| && j != i :: l !in s[j].held
    {
      if l !in t.held {
        assert t.ops[0].Acquire? && l == t.ops[0].lock;
      }
    }
  }

  lemma {:induction false} DisciplinedRun(s: System, moves: seq<nat>)
    requires Disciplined(s) && ValidRun(s, moves)
    ensures Disciplined(Run(s, moves))
    decreases |moves|
  {
    if moves != [] {
      DisciplinedStep(s, moves[0]);
      DisciplinedRun(s[moves[0] := Stepped(s[moves[0]])], moves[1..]);
    }
  }

  ghost predicate WaitsFor(s: System, i: nat, j: nat) {
    && i < |s| && j < |s|
    && s[i].ops != [] && s[i].ops[0].Acquire? && s[i].ops[0].lock in s[j].held
  }

  /** The rank of the lock a thread is about to take. */
  function Wanted(s: System, i: nat): int {
    if i < |s| && s[i].ops != [] && s[i].ops[0].Acquire? then Rank(s[i].ops[0].lock) else -1
  }

  /** A thread waited for wants only locks of higher rank than the one it holds. */
  lemma WaitingRaisesRank(s: System, i: nat, j: nat, k: nat)
    requires Disciplined(s) && WaitsFor(s, i, j) && WaitsFor(s, j, k)
    ensures Wanted(s, i) < Wanted(s, j)
  {
    var l, held := s[i].ops[0].lock, s[j].held;
    var p :| 0 <= p < |held| && held[p] == l;
    assert Rank(l) <= Top(held);
  }

  ghost predicate WaitingPath(s: System, path: seq<nat>) {
    |path| >= 2 && forall i | 0 <= i < |path| - 1 :: WaitsFor(s, path[i], path[i + 1])
  }

  lemma {:induction false} PathRaisesRank(s: System, path: seq<nat>, j: nat)
    requires Disciplined(s) && WaitingPath(s, path) && 0 < j < |path| - 1
    ensures Wanted(s, path[0]) < Wanted(s, path[j])
  {
    assert WaitsFor(s, path[j - 1], path[j]) && WaitsFor(s, path[j], path[j + 1]);
    WaitingRaisesRank(s, path[j - 1], path[j], path[j + 1]);
    if j > 1 {
      PathRaisesRank(s, path, j - 1);
    }
  }

  /** No thread waits, directly or through others, for itself. */
  lemma NoWaitingCycle(s: System, path: seq<nat>)
    requires Disciplined(s) && WaitingPath(s, path)
    ensures path[0] != path[|path| - 1]
  {
    var n := |path| - 1;
    if path[0] == path[n] {
      assert WaitsFor(s, path[0], path[1]) && WaitsFor(s, path[n - 1], path[n]);
      WaitingRaisesRank(s, path[n - 1], path[n], path[1]);
      if n > 1 {
        PathRaisesRank(s, path, n - 1);
      }
    }
  }

  /** From a thread that holds a lock one gets, in at most three hops, to a holder that can step. */
  lemma {:induction false} HolderCanStep(s: System, i: nat)
    requires Disciplined(s) && i < |s| && s[i].held != []
    ensures exists j :: 0 <= j < |s| && s[j].held != [] && CanStep(s, j)
    decreases 2 - Top(s[i].held)
  {
    assert s[i].ops != [];
    if !CanStep(s, i) {
      var l := s[i].ops[0].lock;
      var j :| 0 <= j < |s| && l in s[j].held;
      var p :| 0 <= p < |s[j].held| && s[j].held[p] == l;
      assert Rank(l) <= Top(s[j].held);
      assert Top(s[i].held) < Rank(l);
      assert Top(s[j].held) <= 2;
      HolderCanStep(s, j);
    }
  }

  lemma SomeoneCanStep(s: System, i: nat)
    requires i < |s| && s[i].ops != [] && forall j | 0 <= j < |s| :: s[j].held == []
    requires Disciplined(s)
    ensures CanStep(s, i)
  {
  }

  /** In every reachable state of threads making these calls there is no waiting cycle, some lock holder can
      step if any lock is held, and some thread can step unless all are done. */
  lemma NoDeadlock(programs: seq<seq<Call>>, moves: seq<nat>, path: seq<nat>)
    requires var start := seq(|programs|, i requires 0 <= i < |programs| => Thread([], Program(programs[i])));
             ValidRun(start, moves)
    ensures var start := seq(|programs|, i requires 0 <= i < |programs| => Thread([], Program(programs[i])));
            var s := Run(start, moves);
            && (WaitingPath(s, path) ==> path[0] != path[|path| - 1])
            && ((exists i | 0 <= i < |s| :: s[i].held != []) ==>
                  exists j :: 0 <= j < |s| && s[j].held != [] && CanStep(s, j))
            && ((exists i | 0 <= i < |s| :: s[i].ops != []) ==> exists j: nat :: CanStep(s, j))
  {
    var start := seq(|programs|, i requires 0 <= i < |programs| => Thread([], Program(programs[i])));
    forall i | 0 <= i < |programs|
      ensures Ordered(start[i].held, start[i].ops)
    {
      ProgramsAreOrdered(programs[i]);
    }
    DisciplinedRun(start, moves);
    var s := Run(start, moves);
    if WaitingPath(s, path) {
      NoWaitingCycle(s, path);
    }
    if i :| 0 <= i < |s| && s[i].held != [] {
      HolderCanStep(s, i);
    } else if i :| 0 <= i < |s| && s[i].ops != [] {
      SomeoneCanStep(s, i);
    }
  }

  /** Nor do two threads ever come to access the same guarded thing at once: whoever is about to holds its lock,
      and nobody else is about to. */
  lemma AccessesExcludeEachOther(programs: seq<seq<Call>>, moves: seq<nat>, i: nat, j: nat)
    requires var start := seq(|programs|, i requires 0 <= i < |programs| => Thread([], Program(programs[i])));
             ValidRun(start, moves)
    ensures var start := seq(|programs|, i requires 0 <= i < |programs| => Thread([], Program(programs[i])));
            var s := Run(start, moves);
            i < |s| && j < |s| && i != j && s[i].ops != [] && s[i].ops[0].Touch? ==>
              && s[i].ops[0].lock in s[i].held
              && !(s[j].ops != [] && s[j].ops[0] == s[i].ops[0])
  {
    var start := seq(|programs|, i requires 0 <= i < |programs| => Thread([], Program(programs[i])));
    forall i | 0 <= i < |programs|
      ensures Ordered(start[i].held, start[i].ops)
    {
      ProgramsAreOrdered(programs[i]);
    }
    DisciplinedRun(start, moves);
  }

  // ----- why callbacks must start without locks -----

  /** If the peer library reported a failure while a session call holds the session lock, the callback would
      close the session from under that lock. */
  function FailureUnderSessionLock(id: nat): seq<Op> {
    [Acquire(Session(id))] + (CloseSession(id, 0, false) + [Release(Session(id))])
  }

  lemma CallbackUnderSessionLockDeadlocks(id: nat)
    ensures var start := [Thread([], FailureUnderSessionLock(id)), Thread([], CloseSession(id, 0, false))];
            && ValidRun(start, [0, 1, 1])
            && forall j: nat :: !CanStep(Run(start, [0, 1, 1]), j)
  {
    var start := [Thread([], FailureUnderSessionLock(id)), Thread([], CloseSession(id, 0, false))];
    var s1 := start[0 := Stepped(start[0])];
    var s2 := s1[1 := Stepped(s1[1])];
    var s3 := s2[1 := Stepped(s2[1])];
    FirstOps(id);
    assert s1[0].held == [Session(id)] && s1[0].ops[0] == Acquire(Registry);
    assert s2[1].held == [Registry] && s2[1].ops[0] == Touch(Registry);
    assert s3[1].held == [Registry] && s3[1].ops[0] == Acquire(Session(id));
    assert CanStep(start, 0) && CanStep(s1, 1) && CanStep(s2, 1);
    assert [0, 1, 1][1..] == [1, 1] && [1, 1][1..] == [1] && [1][1..] == [];
    assert Run(s1, [1, 1]) == Run(s2, [1]) && Run(s2, [1]) == Run(s3, []);
    assert ValidRun(s2, [1]) && ValidRun(s1, [1, 1]);
    assert Session(id) in s3[0].held && Registry in s3[1].held;
  }

  lemma FirstOps(id: nat)
    ensures |FailureUnderSessionLock(id)| > 1 && |CloseSession(id, 0, false)| > 2
    ensures FailureUnderSessionLock(id)[0] == Acquire(Session(id))
    ensures FailureUnderSessionLock(id)[1] == Acquire(Registry)
    ensures CloseSession(id, 0, false)[0] == Acquire(Registry) && CloseSession(id, 0, false)[1] == Touch(Registry)
    ensures CloseSession(id, 0, false)[2] == Acquire(Session(id))
  {
  }
}
