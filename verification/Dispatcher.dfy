/** The task dispatcher (Dispatcher.cpp): any number of posting threads, one worker, and the destructor,
    interleaved at every lock operation and every shared read. Tasks are known by number. */
module Dispatcher {

  type Task = int

  datatype Owner = Free | ByWorker | ByPoster(p: nat)

  /** Where a posting thread stands inside `post`. */
  datatype Poster = AtLock(task: Task) | AtPush(task: Task) | AtUnlock

  /** Where the worker stands: its loop reads `running_`, then whether the queue is empty, then locks, waits
      on the condition, takes the front task, unlocks and runs it. */
  datatype Worker =
    | NotStarted | ReadingRunning | ReadingEmpty | Locking | Waiting | Blocked | Taking
    | Running(task: Task) | Left

  datatype Destructor = Alive | Joining | Gone

  /** `posted` and `executed` record the run. `crashed` is set if the front of an empty queue is taken. */
  datatype State = State(
    queue: seq<Task>, running: bool, owner: Owner, worker: Worker, posters: map<nat, Poster>,
    destructor: Destructor, posted: seq<Task>, executed: seq<Task>, crashed: bool)

  const INITIAL := State([], false, Free, NotStarted, map[], Alive, [], [], false)

  datatype Action =
    | CallPost(p: nat, task: Task)
    | StepPoster(p: nat)
    | CallStart
    | StepWorker
    | Wake
    | CallDestructor
    | Join

  /** Calls on the dispatcher stop when its destructor begins; posts under way may still finish. */
  predicate Enabled(s: State, a: Action) {
    match a
    case CallPost(p, _) => p !in s.posters && s.destructor.Alive?
    case StepPoster(p) => p in s.posters && (s.posters[p].AtLock? ==> s.owner.Free?)
    case CallStart => s.destructor.Alive?
    case StepWorker =>
      (match s.worker
       case NotStarted => false
       case Left => false
       case Blocked => false
       case Locking => s.owner.Free?
       case _ => true)
    case Wake => s.worker.Blocked?
    case CallDestructor => s.destructor.Alive?
    case Join => s.destructor.Joining? && (s.worker.Left? || s.worker.NotStarted?)
  }

  function WorkerStep(s: State): State {
    match s.worker
    case ReadingRunning => s.(worker := if s.running then ReadingEmpty else Left)
    case ReadingEmpty => s.(worker := if s.queue != [] then Locking else Left)
    case Locking => s.(worker := Waiting, owner := ByWorker)
    case Waiting => if s.queue != [] || !s.running then s.(worker := Taking) else s.(worker := Blocked, owner := Free)
    case Taking =>
      if s.queue == [] then s.(crashed := true)
      else s.(worker := Running(s.queue[0]), queue := s.queue[1..], owner := Free)
    case Running(task) => s.(worker := ReadingRunning, executed := s.executed + [task])
    case _ => s
  }

  function PosterStep(s: State, p: nat): State {
    if p !in s.posters then s
    else
      match s.posters[p]
      case AtLock(task) => s.(owner := ByPoster(p), posters := s.posters[p := AtPush(task)])
      case AtPush(task) =>
        s.(queue := s.queue + [task], posted := s.posted + [task], posters := s.posters[p := AtUnlock])
      case AtUnlock => s.(owner := Free, posters := s.posters - {p})
  }

  function Act(s: State, a: Action): State {
    match a
    case CallPost(p, task) => s.(posters := s.posters[p := AtLock(task)])
    case StepPoster(p) => PosterStep(s, p)
    case CallStart => if s.running then s else s.(running := true, worker := ReadingRunning)
    case StepWorker => WorkerStep(s)
    case Wake => s.(worker := Locking)
    case CallDestructor => s.(running := false, destructor := if s.running then Joining else Gone)
    case Join => s.(destructor := Gone)
  }

  function Run(s: State, actions: seq<Action>): State
    decreases |actions|
  {
    if actions == [] then s else Run(Act(s, actions[0]), actions[1..])
  }

  predicate ValidRun(s: State, actions: seq<Action>)
    decreases |actions|
  {
    actions == [] || (Enabled(s, actions[0]) && ValidRun(Act(s, actions[0]), actions[1..]))
  }

  // ----- safety -----

  function InFlight(w: Worker): seq<Task> {
    match w
    case Running(task) => [task]
    case _ => []
  }

  predicate Holds(s: State, o: Owner) {
    match o
    case Free => true
    case ByWorker => s.worker.Waiting? || s.worker.Taking?
    case ByPoster(p) => p in s.posters && !s.posters[p].AtLock?
  }

  /** What holds between any two steps. */
  ghost predicate Safe(s: State) {
    && !s.crashed && !s.worker.Blocked?
    && s.posted == s.executed + InFlight(s.worker) + s.queue
    && ((s.worker.Locking? || s.worker.Waiting? || s.worker.Taking?) ==> s.queue != [])
    && Holds(s, s.owner)
    && ((s.worker.Waiting? || s.worker.Taking?) ==> s.owner == ByWorker)
    && (forall p | p in s.posters && !s.posters[p].AtLock? :: s.owner == ByPoster(p))
    && (s.running ==> !s.worker.NotStarted? && s.destructor.Alive?)
    && (!s.worker.NotStarted? && s.destructor.Alive? ==> s.running)
  }

  lemma WorkerIsSafe(s: State)
    requires Safe(s) && Enabled(s, StepWorker)
    ensures Safe(WorkerStep(s))
  {
    if s.worker.Taking? {
      assert s.queue == [s.queue[0]] + s.queue[1..];
    }
  }

  lemma PosterIsSafe(s: State, p: nat)
    requires Safe(s) && Enabled(s, StepPoster(p))
    ensures Safe(PosterStep(s, p))
  {
    if s.posters[p].AtPush? {
      assert s.posted + [s.posters[p].task] == s.executed + InFlight(s.worker) + (s.queue + [s.posters[p].task]);
    }
  }

  lemma SafeStep(s: State, a: Action)
    requires Safe(s) && Enabled(s, a)
    ensures Safe(Act(s, a))
  {
    match a
    case StepWorker => WorkerIsSafe(s);
    case StepPoster(p) => PosterIsSafe(s, p);
    case CallPost(_, _) =>
    case CallStart =>
    case Wake =>
    case CallDestructor =>
    case Join =>
  }

  /** In every interleaving: the posted log is the executed one, then the task in flight, then the queue;
      the front of an empty queue is never taken; the lock has one holder; the worker never blocks on the
      condition variable. */
  lemma {:induction false} SafeRun(s: State, actions: seq<Action>)
    requires Safe(s) && ValidRun(s, actions)
    ensures Safe(Run(s, actions))
    decreases |actions|
  {
    if actions != [] {
      SafeStep(s, actions[0]);
      SafeRun(Act(s, actions[0]), actions[1..]);
    }
  }

  lemma InitialIsSafe()
    ensures Safe(INITIAL)
  {
  }

  // ----- the worker leaves for good -----

  /** Once the worker has left its loop nothing is executed again, whatever is posted or started later:
      `running_` stays set, so `start` does nothing, and the queue only grows. */
  lemma {:induction false} LeftWorkerExecutesNothing(s: State, actions: seq<Action>)
    requires Safe(s) && ValidRun(s, actions) && s.worker.Left?
    ensures var s' := Run(s, actions);
            s'.worker.Left? && s'.executed == s.executed && s.queue <= s'.queue
    decreases |actions|
  {
    if actions != [] {
      SafeStep(s, actions[0]);
      LeftWorkerExecutesNothing(Act(s, actions[0]), actions[1..]);
    }
  }

  /** The worker leaves either because it read a cleared flag or because it found the queue empty; in the
      second case everything posted so far has been executed, and everything posted later stays queued. */
  lemma WhatTheWorkerLeavesBehind(s: State, actions: seq<Action>)
    requires Safe(s) && Enabled(s, StepWorker) && Act(s, StepWorker).worker.Left?
    requires ValidRun(Act(s, StepWorker), actions)
    ensures (s.worker.ReadingRunning? && !s.running) || (s.worker.ReadingEmpty? && s.posted == s.executed)
    ensures var s' := Run(Act(s, StepWorker), actions);
            s'.executed == s.executed && s'.posted == s.executed + s'.queue
  {
    SafeStep(s, StepWorker);
    LeftWorkerExecutesNothing(Act(s, StepWorker), actions);
    SafeRun(Act(s, StepWorker), actions);
  }

  /** A dispatcher started on an empty queue, whose worker gets to look before the first push, never
      executes anything: the order in which the server starts it. */
  lemma StartedEmptyNeverExecutes(actions: seq<Action>)
    requires var first := [CallStart, StepWorker, StepWorker];
             ValidRun(Run(INITIAL, first), actions)
    ensures var s' := Run(Run(INITIAL, [CallStart, StepWorker, StepWorker]), actions);
            s'.executed == [] && s'.queue == s'.posted
  {
    var s1 := Act(INITIAL, CallStart);
    var s2 := Act(s1, StepWorker);
    assert [CallStart, StepWorker, StepWorker][1..] == [StepWorker, StepWorker];
    assert [StepWorker, StepWorker][1..] == [StepWorker] && [StepWorker][1..] == [];
    assert Run(s1, [StepWorker, StepWorker]) == Run(s2, [StepWorker]);
    assert Run(s2, [StepWorker]) == Run(Act(s2, StepWorker), []);
    SafeStep(INITIAL, CallStart);
    SafeStep(s1, StepWorker);
    WhatTheWorkerLeavesBehind(s2, actions);
  }

  // ----- shutdown -----

  /** How many worker steps are left once the flag is cleared. */
  function StepsLeft(w: Worker): nat {
    match w
    case ReadingEmpty => 6
    case Locking => 5
    case Waiting => 4
    case Taking => 3
    case Running(_) => 2
    case ReadingRunning => 1
    case _ => 0
  }

  function CanStillExecute(w: Worker): nat {
    if w.ReadingRunning? || w.Left? || w.NotStarted? then 0 else 1
  }

  function WorkerSteps(actions: seq<Action>): nat {
    if actions == [] then 0 else (if actions[0].StepWorker? then 1 else 0) + WorkerSteps(actions[1..])
  }

  /** After the destructor has cleared the flag, the worker makes at most six more steps and executes at
      most one more task; when it is out of steps the join goes through. */
  lemma {:induction false} ShutdownIsBounded(s: State, actions: seq<Action>)
    requires Safe(s) && ValidRun(s, actions) && !s.destructor.Alive?
    ensures var s' := Run(s, actions);
            && !s'.destructor.Alive?
            && WorkerSteps(actions) + StepsLeft(s'.worker) <= StepsLeft(s.worker)
            && |s'.executed| + CanStillExecute(s'.worker) <= |s.executed| + CanStillExecute(s.worker)
            && (s'.destructor.Joining? && StepsLeft(s'.worker) == 0 ==> Enabled(s', Join))
    decreases |actions|
  {
    if actions != [] {
      SafeStep(s, actions[0]);
      ShutdownIsBounded(Act(s, actions[0]), actions[1..]);
    }
  }

  /** The join cannot wait on a held lock for ever: whenever the worker has steps left, it or the lock's
      holder can move. */
  lemma WorkerOrHolderCanMove(s: State)
    requires Safe(s) && StepsLeft(s.worker) > 0
    ensures Enabled(s, StepWorker) || (s.owner.ByPoster? && Enabled(s, StepPoster(s.owner.p)))
  {
  }

  // ----- the code itself, as one thread of the step system -----

  ghost predicate Reaches(s: State, t: State) {
    exists actions :: ValidRun(s, actions) && Run(s, actions) == t
  }

  lemma {:induction false} RunJoin(s: State, first: seq<Action>, second: seq<Action>)
    requires ValidRun(s, first) && ValidRun(Run(s, first), second)
    ensures ValidRun(s, first + second) && Run(s, first + second) == Run(Run(s, first), second)
    decreases |first|
  {
    if first == [] {
      assert first + second == second;
    } else {
      assert (first + second)[1..] == first[1..] + second;
      RunJoin(Act(s, first[0]), first[1..], second);
    }
  }

  lemma ReachesTransitively(s: State, t: State, u: State)
    requires Reaches(s, t) && Reaches(t, u)
    ensures Reaches(s, u)
  {
    var first :| ValidRun(s, first) && Run(s, first) == t;
    var second :| ValidRun(t, second) && Run(t, second) == u;
    RunJoin(s, first, second);
  }

  lemma OneStep(s: State, a: Action)
    requires Safe(s) && Enabled(s, a)
    ensures Reaches(s, Act(s, a)) && Safe(Act(s, a))
  {
    SafeStep(s, a);
    assert [a][1..] == [];
    assert Run(s, [a]) == Run(Act(s, a), []);
    assert ValidRun(s, [a]);
  }

  /** What other threads do while one task runs: some posts, and perhaps the destructor. */
  datatype Meanwhile = Meanwhile(posts: seq<Task>, stop: bool)

  function PostsFrom(script: seq<Meanwhile>): nat {
    if script == [] then 0 else |script[0].posts| + PostsFrom(script[1..])
  }

  class TaskDispatcher {
    var queue: seq<Task>
    var running: bool
    ghost var state: State

    /** The fields are those of the step system, at a moment when no post is under way. */
    ghost predicate Valid()
      reads this
    {
      queue == state.queue && running == state.running && Safe(state) && state.owner.Free? && state.posters == map[]
    }

    constructor ()
      ensures Valid() && state == INITIAL
    {
      queue, running, state := [], false, INITIAL;
    }

    method Post(task: Task)
      requires Valid() && state.destructor.Alive?
      modifies this
      ensures Valid() && Reaches(old(state), state)
      ensures state == old(state).(queue := old(queue) + [task], posted := old(state.posted) + [task])
    {
      queue := queue + [task];
      ghost var s0 := state;
      ghost var s1 := Act(s0, CallPost(0, task));
      ghost var s2 := Act(s1, StepPoster(0));
      ghost var s3 := Act(s2, StepPoster(0));
      state := Act(s3, StepPoster(0));
      OneStep(s0, CallPost(0, task));
      OneStep(s1, StepPoster(0));
      OneStep(s2, StepPoster(0));
      OneStep(s3, StepPoster(0));
      ReachesTransitively(s0, s1, s2);
      ReachesTransitively(s0, s2, s3);
      ReachesTransitively(s0, s3, state);
    }

    /** The first statement of the destructor; from here on the join waits for the worker to leave. */
    method ClearFlag()
      requires Valid() && state.destructor.Alive?
      modifies this
      ensures Valid() && Reaches(old(state), state)
      ensures state == Act(old(state), CallDestructor)
    {
      running := false;
      OneStep(state, CallDestructor);
      state := Act(state, CallDestructor);
    }

    /** The locked section of the worker: take the front task. */
    method TakeFront() returns (task: Task)
      requires Valid() && state.worker.ReadingEmpty? && queue != []
      modifies this
      ensures Valid() && Reaches(old(state), state)
      ensures task == old(queue)[0]
      ensures state == old(state).(worker := Running(task), queue := old(queue)[1..])
      ensures running == old(running)
    {
      task := queue[0];
      queue := queue[1..];
      ghost var s0 := state;
      ghost var s1 := Act(s0, StepWorker);
      ghost var s2 := Act(s1, StepWorker);
      ghost var s3 := Act(s2, StepWorker);
      state := Act(s3, StepWorker);
      OneStep(s0, StepWorker);
      OneStep(s1, StepWorker);
      OneStep(s2, StepWorker);
      OneStep(s3, StepWorker);
      ReachesTransitively(s0, s1, s2);
      ReachesTransitively(s0, s2, s3);
      ReachesTransitively(s0, s3, state);
    }

    /** Other threads at work while the worker runs a task. */
    method Interfere(m: Meanwhile)
      requires Valid() && state.destructor.Alive? && running
      modifies this
      ensures Valid() && Reaches(old(state), state)
      ensures state.worker == old(state.worker) && state.executed == old(state.executed)
      ensures queue == old(queue) + m.posts
      ensures running == !m.stop && (running <==> state.destructor.Alive?)
    {
      ghost var s0 := state;
      assert ValidRun(s0, []) && Run(s0, []) == s0;
      var i := 0;
      while i < |m.posts|
        invariant i <= |m.posts|
        invariant Valid() && Reaches(s0, state) && state.destructor.Alive? && running
        invariant state.worker == s0.worker && state.executed == s0.executed
        invariant queue == old(queue) + m.posts[..i]
      {
        ghost var earlier := state;
        Post(m.posts[i]);
        ReachesTransitively(s0, earlier, state);
        i := i + 1;
      }
      if m.stop {
        ghost var earlier := state;
        ClearFlag();
        ReachesTransitively(s0, earlier, state);
      }
    }

    /** The task is done and the worker has read the flag again. */
    ghost method FinishTask(task: Task)
      requires Valid() && state.worker == Running(task)
      modifies this`state
      ensures Valid() && Reaches(old(state), state)
      ensures state == old(state).(worker := if running then ReadingEmpty else Left,
                                   executed := old(state.executed) + [task])
    {
      var ran := Act(state, StepWorker);
      OneStep(state, StepWorker);
      OneStep(ran, StepWorker);
      ReachesTransitively(state, ran, Act(ran, StepWorker));
      state := Act(ran, StepWorker);
    }

    /** The flag is set and the worker has read it. */
    method Launch()
      requires Valid() && state.destructor.Alive? && !running
      modifies this
      ensures Valid() && Reaches(old(state), state)
      ensures state == old(state).(running := true, worker := ReadingEmpty)
    {
      running := true;
      ghost var s0 := state;
      ghost var launched := Act(s0, CallStart);
      state := Act(launched, StepWorker);
      OneStep(s0, CallStart);
      OneStep(launched, StepWorker);
      ReachesTransitively(s0, launched, state);
    }

    /** The worker finds the queue empty. */
    ghost method LeaveLoop()
      requires Valid() && state.worker.ReadingEmpty? && queue == []
      modifies this`state
      ensures Valid() && Reaches(old(state), state)
      ensures state == old(state).(worker := Left)
    {
      OneStep(state, StepWorker);
      state := Act(state, StepWorker);
    }

    /** The body of the loop, with what happens around it while the task runs. */
    method RunFront(m: Meanwhile) returns (task: Task)
      requires Valid() && state.worker.ReadingEmpty? && queue != [] && running && state.destructor.Alive?
      modifies this
      ensures Valid() && Reaches(old(state), state)
      ensures task == old(queue)[0] && queue == old(queue)[1..] + m.posts
      ensures state.executed == old(state.executed) + [task]
      ensures running == !m.stop && (running <==> state.destructor.Alive?)
      ensures state.worker == if running then ReadingEmpty else Left
    {
      ghost var s0 := state;
      task := TakeFront();
      ghost var s1 := state;
      Interfere(m);
      ghost var s2 := state;
      FinishTask(task);
      ReachesTransitively(s0, s1, s2);
      ReachesTransitively(s0, s2, state);
    }

    /** `start` and the worker loop it spawns, followed to the end of the loop; entry k of the script is what
        happens around the loop while its task number k runs. */
    method Start(script: seq<Meanwhile>) returns (executed: seq<Task>)
      requires Valid() && state.destructor.Alive?
      modifies this
      ensures Valid() && Reaches(old(state), state)
      ensures old(running) ==> executed == [] && state == old(state)
      ensures !old(running) ==> state.worker.Left? && (queue == [] || !running)
      ensures state.executed == old(state.executed) + executed
    {
      executed := [];
      ghost var s0 := state;
      if running {
        assert ValidRun(s0, []) && Run(s0, []) == s0;
        return;
      }
      Launch();
      var k := 0;
      while running && queue != []
        invariant Valid() && Reaches(s0, state)
        invariant k <= |script|
        invariant state.worker == if running then ReadingEmpty else Left
        invariant state.executed == s0.executed + executed
        invariant running <==> state.destructor.Alive?
        decreases |queue| + PostsFrom(script[k..])
      {
        ghost var before := state;
        var m := if k < |script| then script[k] else Meanwhile([], false);
        assert k < |script| ==> script[k..][1..] == script[k + 1..];
        var task := RunFront(m);
        ReachesTransitively(s0, before, state);
        k := if k < |script| then k + 1 else k;
        executed := executed + [task];
      }
      if running {
        ghost var before := state;
        LeaveLoop();
        ReachesTransitively(s0, before, state);
      }
    }
  }
}
