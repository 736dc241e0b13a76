/** The session registry (SessionManager.cpp) together with the dispatcher queue and the peer callbacks:
    shared and weak references, reused ids, and posted tasks that outlive their session. Each handler runs
    as one step. */
module Sessions {
  import opened Base
  import opened PeerSession

  /** An allocated session. `refs` counts its shared references; the destructor runs when it reaches zero. */
  datatype Object = Object(id: nat, data: SessionData, refs: nat, destroyed: bool)

  datatype Input = Remote(wellFormed: bool) | StateMessage(to: ConnectionState)

  /** Closures in the dispatcher's queue. Those from a stream look the session up by id when they run; those
      from a session hold it weakly. */
  datatype Task =
    | CreateTask(id: nat)
    | DeliverTask(id: nat, input: Input)
    | SendTask(session: nat, notice: Notice)

  /** What went to a sink: for which session, and the state it was in; a connection notice reports that state. */
  datatype Sent = Sent(sink: nat, id: nat, notice: Notice, state: ConnectionState)

  /** What a session answered to a description or candidate. */
  datatype Answer = Answer(session: nat, error: Option<RemoteError>)

  /** Objects are numbered in order of creation. `crashed` is set when a send goes through a null sink. */
  datatype World = World(
    registry: map<nat, nat>, heap: map<nat, Object>, next: nat, queue: seq<Task>, sent: seq<Sent>,
    answers: seq<Answer>, crashed: bool)

  const EMPTY := World(map[], map[], 0, [], [], [], false)

  /** Steps: a stream posts; the worker runs the front task (whose stream may be gone); a peer callback
      arrives for some object, dead or alive; and the two calls nothing in the repository makes. */
  datatype Action =
    | StreamPosts(task: Task)
    | RunTask(streamAlive: bool, garbage: ConnectionState)
    | LocalCallback(session: nat, notice: Notice)
    | StateCallback(session: nat, to: ConnectionState)
    | EnvStart(id: nat)
    | EnvAttach(id: nat, sink: Option<nat>)

  predicate Enabled(a: Action) {
    match a
    case StreamPosts(task) => !task.SendTask?
    case LocalCallback(_, notice) => !notice.StateNotice?
    case _ => true
  }

  predicate Alive(w: World, r: nat) {
    r in w.heap && w.heap[r].refs > 0
  }

  predicate Open(w: World, r: nat) {
    r in w.heap && !w.heap[r].data.isClosed
  }

  predicate Registered(w: World, r: nat) {
    r in w.heap && w.heap[r].id in w.registry && w.registry[w.heap[r].id] == r
  }

  function WithData(w: World, r: nat, d: SessionData): World
    requires r in w.heap
  {
    w.(heap := w.heap[r := w.heap[r].(data := d)])
  }

  function Retain(w: World, r: nat): World
    requires r in w.heap
  {
    w.(heap := w.heap[r := w.heap[r].(refs := w.heap[r].refs + 1)])
  }

  /** Dropping the last reference runs the destructor, which closes the session once more. */
  function Release(w: World, r: nat): World
    requires r in w.heap
  {
    var o := w.heap[r];
    if o.refs <= 1 then w.(heap := w.heap[r := Object(o.id, ClosedDown(o.data), 0, true)])
    else w.(heap := w.heap[r := o.(refs := o.refs - 1)])
  }

  function CreateSession(w: World, id: nat, garbage: ConnectionState): World {
    if id in w.registry then w
    else w.(registry := w.registry[id := w.next],
            heap := w.heap[w.next := Object(id, Created(garbage), 1, false)], next := w.next + 1)
  }

  function CloseSession(w: World, id: nat): World {
    if id !in w.registry || w.registry[id] !in w.heap then w
    else
      var r := w.registry[id];
      Release(WithData(w, r, ClosedDown(w.heap[r].data)).(registry := w.registry - {id}), r)
  }

  /** The handler itself, on a session someone holds a reference to. */
  function HandleState(w: World, r: nat, to: ConnectionState): World
    requires r in w.heap
  {
    var (d, effect) := StateChanged(w.heap[r].data, to);
    var w' := WithData(w, r, d);
    match effect
    case PostNotice => w'.(queue := w'.queue + [SendTask(r, StateNotice)])
    case Terminate => CloseSession(w', w.heap[r].id)
    case _ => w'
  }

  function HandleLocal(w: World, r: nat, notice: Notice): World
    requires r in w.heap
  {
    if w.heap[r].data.isClosed || w.heap[r].data.sink.None? then w
    else w.(queue := w.queue + [SendTask(r, notice)])
  }

  function Send(w: World, r: nat, notice: Notice): World
    requires r in w.heap
  {
    if w.heap[r].data.sink.None? then w.(crashed := true)
    else w.(sent := w.sent + [Sent(w.heap[r].data.sink.value, w.heap[r].id, notice, w.heap[r].data.state)])
  }

  /** Objects are never forgotten, only marked destroyed; so this holds after any step if it held before. */
  predicate HasObject(w: World, r: nat) {
    r in w.heap
  }

  function LockedState(w: World, r: nat, to: ConnectionState): World {
    if !Alive(w, r) then w
    else
      var w' := HandleState(Retain(w, r), r, to);
      if HasObject(w', r) then Release(w', r) else w'
  }

  function LockedLocal(w: World, r: nat, notice: Notice): World {
    if !Alive(w, r) then w else Release(HandleLocal(Retain(w, r), r, notice), r)
  }

  function LockedSend(w: World, r: nat, notice: Notice): World {
    if !Alive(w, r) then w else Release(Send(Retain(w, r), r, notice), r)
  }

  /** A description or candidate, for a session just found in the registry. */
  function Given(w: World, r: nat, wellFormed: bool): World {
    if r !in w.heap then w
    else w.(answers := w.answers + [Answer(r, RemoteOutcome(w.heap[r].data, wellFormed))])
  }

  function Execute(w: World, task: Task, streamAlive: bool, garbage: ConnectionState): World {
    match task
    case CreateTask(id) => if streamAlive then CreateSession(w, id, garbage) else w
    case DeliverTask(id, input) =>
      if !streamAlive || id !in w.registry then w
      else
        (match input
         case Remote(wellFormed) => Given(w, w.registry[id], wellFormed)
         case StateMessage(to) => LockedState(w, w.registry[id], to))
    case SendTask(r, notice) => LockedSend(w, r, notice)
  }

  function Act(w: World, a: Action): World {
    match a
    case StreamPosts(task) => w.(queue := w.queue + [task])
    case RunTask(streamAlive, garbage) =>
      if w.queue == [] then w else Execute(w.(queue := w.queue[1..]), w.queue[0], streamAlive, garbage)
    case LocalCallback(r, notice) => LockedLocal(w, r, notice)
    case StateCallback(r, to) => LockedState(w, r, to)
    case EnvStart(id) =>
      if id !in w.registry || w.registry[id] !in w.heap then w
      else WithData(w, w.registry[id], Started(w.heap[w.registry[id]].data))
    case EnvAttach(id, sink) =>
      if id !in w.registry || w.registry[id] !in w.heap then w
      else WithData(w, w.registry[id], Attached(w.heap[w.registry[id]].data, sink).0)
  }

  function Run(w: World, actions: seq<Action>): World
    decreases |actions|
  {
    if actions == [] then w else Run(Act(w, actions[0]), actions[1..])
  }

  // ----- lifetimes -----

  /** Between steps an object has one reference, from the registry, or none. */
  ghost predicate ObjectSound(w: World, r: nat)
    requires r in w.heap
  {
    var o := w.heap[r];
    && r < w.next
    && o.refs == (if Registered(w, r) then 1 else 0)
    && (o.destroyed <==> o.refs == 0)
    && (o.data.isClosed <==> o.refs == 0)
    && (o.data.isClosed ==> o.data.sink.None?)
  }

  ghost predicate Sound(w: World) {
    && (forall id | id in w.registry :: w.registry[id] in w.heap && w.heap[w.registry[id]].id == id)
    && (forall r | r in w.heap :: ObjectSound(w, r))
    && (forall i | 0 <= i < |w.queue| && w.queue[i].SendTask? :: w.queue[i].session in w.heap)
  }

  // The same steps without reference counting.

  function DirectState(w: World, r: nat, to: ConnectionState): World {
    if !Registered(w, r) then w
    else
      var (d, effect) := StateChanged(w.heap[r].data, to);
      match effect
      case Ignored => w
      case Silent => WithData(w, r, d)
      case PostNotice => WithData(w, r, d).(queue := w.queue + [SendTask(r, StateNotice)])
      case Terminate => w.(registry := w.registry - {w.heap[r].id},
                           heap := w.heap[r := Object(w.heap[r].id, ClosedDown(d), 0, true)])
  }

  function DirectTask(w: World, task: Task, streamAlive: bool, garbage: ConnectionState): World {
    match task
    case CreateTask(id) => if streamAlive then CreateSession(w, id, garbage) else w
    case DeliverTask(id, input) =>
      if !streamAlive || id !in w.registry then w
      else
        (match input
         case Remote(wellFormed) => Given(w, w.registry[id], wellFormed)
         case StateMessage(to) => DirectState(w, w.registry[id], to))
    case SendTask(r, notice) => if Registered(w, r) then Send(w, r, notice) else w
  }

  function Direct(w: World, a: Action): World {
    match a
    case RunTask(streamAlive, garbage) =>
      if w.queue == [] then w else DirectTask(w.(queue := w.queue[1..]), w.queue[0], streamAlive, garbage)
    case LocalCallback(r, notice) => if Registered(w, r) then HandleLocal(w, r, notice) else w
    case StateCallback(r, to) => DirectState(w, r, to)
    case _ => Act(w, a)
  }

  /** A state change in full: a termination removes and destroys that very session. */
  lemma StateChangeIsDirect(w: World, r: nat, to: ConnectionState)
    requires Sound(w)
    ensures LockedState(w, r, to) == DirectState(w, r, to)
  {
    if Alive(w, r) {
      var o := w.heap[r];
      assert o.refs == 1 && w.heap[r := o.(refs := 2)][r := o] == w.heap;
      if StateChanged(o.data, to).1.Terminate? {
        TerminationIsDirect(w, r, to);
      }
    }
  }

  lemma TerminationIsDirect(w: World, r: nat, to: ConnectionState)
    requires Sound(w) && Alive(w, r) && StateChanged(w.heap[r].data, to).1.Terminate?
    ensures LockedState(w, r, to) == DirectState(w, r, to)
  {
    var o, d := w.heap[r], StateChanged(w.heap[r].data, to).0;
    var w1 := WithData(Retain(w, r), r, d);
    assert w1.registry[o.id] == r;
    assert CloseSession(w1, o.id) ==
           w.(registry := w.registry - {o.id}, heap := w.heap[r := Object(o.id, ClosedDown(d), 1, false)]);
  }

  lemma HandlersAreDirect(w: World, r: nat, notice: Notice)
    requires Sound(w)
    ensures LockedLocal(w, r, notice) == if Registered(w, r) then HandleLocal(w, r, notice) else w
    ensures LockedSend(w, r, notice) == if Registered(w, r) then Send(w, r, notice) else w
  {
    if Alive(w, r) {
      var o := w.heap[r];
      assert w.heap[r := o.(refs := 2)][r := o] == w.heap;
    }
  }

  /** Weak locks and reference counts are invisible: every step does what it would do if it simply asked
      the registry whether the session is there. */
  lemma StepIsDirect(w: World, a: Action)
    requires Sound(w)
    ensures Act(w, a) == Direct(w, a)
  {
    match a
    case RunTask(streamAlive, garbage) =>
      if w.queue != [] {
        var w1 := w.(queue := w.queue[1..]);
        match w.queue[0]
        case CreateTask(id) =>
        case DeliverTask(id, input) =>
          if streamAlive && id in w.registry && input.StateMessage? {
            StateChangeIsDirect(w1, w.registry[id], input.to);
          }
        case SendTask(r, notice) => HandlersAreDirect(w1, r, notice);
      }
    case StateCallback(r, to) => StateChangeIsDirect(w, r, to);
    case LocalCallback(r, notice) => HandlersAreDirect(w, r, notice);
    case _ =>
  }

  lemma CreateIsSound(w: World, id: nat, garbage: ConnectionState)
    requires Sound(w)
    ensures Sound(CreateSession(w, id, garbage))
  {
  }

  lemma DataIsSound(w: World, r: nat, d: SessionData)
    requires Sound(w) && Registered(w, r) && !d.isClosed
    ensures Sound(WithData(w, r, d))
  {
  }

  lemma TerminationIsSound(w: World, r: nat, d: SessionData)
    requires Sound(w) && Registered(w, r)
    ensures Sound(w.(registry := w.registry - {w.heap[r].id},
                     heap := w.heap[r := Object(w.heap[r].id, ClosedDown(d), 0, true)]))
  {
  }

  lemma StateChangeIsSound(w: World, r: nat, to: ConnectionState)
    requires Sound(w)
    ensures Sound(DirectState(w, r, to))
  {
    if Registered(w, r) {
      var d := StateChanged(w.heap[r].data, to).0;
      DataIsSound(w, r, d);
      TerminationIsSound(w, r, d);
    }
  }

  lemma TaskIsSound(w: World, task: Task, streamAlive: bool, garbage: ConnectionState)
    requires Sound(w)
    ensures Sound(DirectTask(w, task, streamAlive, garbage))
  {
    match task
    case CreateTask(id) => CreateIsSound(w, id, garbage);
    case DeliverTask(id, input) =>
      if id in w.registry && input.StateMessage? {
        StateChangeIsSound(w, w.registry[id], input.to);
      }
    case SendTask(r, notice) =>
  }

  lemma SoundStep(w: World, a: Action)
    requires Sound(w) && Enabled(a)
    ensures Sound(Act(w, a))
  {
    StepIsDirect(w, a);
    match a
    case RunTask(streamAlive, garbage) =>
      if w.queue != [] {
        TaskIsSound(w.(queue := w.queue[1..]), w.queue[0], streamAlive, garbage);
      }
    case StateCallback(r, to) => StateChangeIsSound(w, r, to);
    case EnvStart(id) =>
      if id in w.registry {
        DataIsSound(w, w.registry[id], Started(w.heap[w.registry[id]].data));
      }
    case EnvAttach(id, sink) =>
      if id in w.registry {
        DataIsSound(w, w.registry[id], Attached(w.heap[w.registry[id]].data, sink).0);
      }
    case _ =>
  }

  predicate ValidRun(actions: seq<Action>) {
    forall i | 0 <= i < |actions| :: Enabled(actions[i])
  }

  lemma {:induction false} SoundRun(w: World, actions: seq<Action>)
    requires Sound(w) && ValidRun(actions)
    ensures Sound(Run(w, actions))
    decreases |actions|
  {
    if actions != [] {
      SoundStep(w, actions[0]);
      SoundRun(Act(w, actions[0]), actions[1..]);
    }
  }

  /** In every run a created session is alive, open and registered together, or none of the three. */
  lemma AliveOpenAndRegisteredTogether(actions: seq<Action>, r: nat)
    requires ValidRun(actions)
    ensures var w := Run(EMPTY, actions);
            r in w.heap ==> (Alive(w, r) <==> Registered(w, r)) && (Open(w, r) <==> Registered(w, r))
  {
    SoundRun(EMPTY, actions);
  }

  /** The termination of a session closes that session and leaves every other one, a later holder of
      the same id included, as it was. */
  lemma TerminationClosesOnlyItself(w: World, r: nat, to: ConnectionState, other: nat)
    requires Sound(w) && Alive(w, r) && StateChanged(w.heap[r].data, to).1.Terminate?
    requires other in w.heap && other != r
    ensures var w' := LockedState(w, r, to);
            && Registered(w, r) && !Registered(w', r) && !Open(w', r) && !Alive(w', r)
            && w'.heap[other] == w.heap[other] && (Registered(w', other) <==> Registered(w, other))
  {
    StateChangeIsDirect(w, r, to);
  }

  /** How one step may change a session: it never comes back, never reopens, and loses a sink only by closing. */
  ghost predicate OnlyCloses(w: World, w': World) {
    forall r | r in w.heap ::
      && r in w'.heap
      && (Alive(w', r) ==> Alive(w, r))
      && (Open(w', r) ==> Open(w, r))
      && (Open(w', r) && w.heap[r].data.sink.Some? ==> w'.heap[r].data.sink.Some?)
  }

  lemma StateChangeOnlyCloses(w: World, r: nat, to: ConnectionState)
    requires Sound(w)
    ensures OnlyCloses(w, DirectState(w, r, to))
  {
  }

  lemma CreateOnlyCloses(w: World, id: nat, garbage: ConnectionState)
    requires Sound(w)
    ensures OnlyCloses(w, CreateSession(w, id, garbage))
  {
  }

  lemma TaskOnlyCloses(w: World, task: Task, streamAlive: bool, garbage: ConnectionState)
    requires Sound(w)
    ensures OnlyCloses(w, DirectTask(w, task, streamAlive, garbage))
  {
    match task
    case CreateTask(id) => CreateOnlyCloses(w, id, garbage);
    case DeliverTask(id, input) =>
      if id in w.registry && input.StateMessage? {
        StateChangeOnlyCloses(w, w.registry[id], input.to);
      }
    case SendTask(_, _) =>
  }

  lemma StepOnlyCloses(w: World, a: Action)
    requires Sound(w) && Enabled(a)
    ensures OnlyCloses(w, Act(w, a))
  {
    StepIsDirect(w, a);
    match a
    case RunTask(streamAlive, garbage) =>
      if w.queue != [] {
        TaskOnlyCloses(w.(queue := w.queue[1..]), w.queue[0], streamAlive, garbage);
      }
    case StateCallback(r, to) => StateChangeOnlyCloses(w, r, to);
    case EnvStart(id) =>
      if id in w.registry {
        DataOnlyCloses(w, w.registry[id], Started(w.heap[w.registry[id]].data));
      }
    case EnvAttach(id, sink) =>
      if id in w.registry {
        DataOnlyCloses(w, w.registry[id], Attached(w.heap[w.registry[id]].data, sink).0);
      }
    case StreamPosts(_) =>
    case LocalCallback(_, _) =>
  }

  lemma DataOnlyCloses(w: World, r: nat, d: SessionData)
    requires r in w.heap && d.isClosed == w.heap[r].data.isClosed
    requires w.heap[r].data.sink.Some? ==> d.sink.Some?
    ensures OnlyCloses(w, WithData(w, r, d))
  {
  }

  /** Whatever happens after a session has gone: its callbacks change nothing, and its leftover posted
      tasks, when they come up, only leave the queue. */
  lemma {:induction false} LeftoversAreNoOps(w: World, actions: seq<Action>, r: nat)
    requires Sound(w) && ValidRun(actions) && r in w.heap && !Alive(w, r)
    ensures var w' := Run(w, actions);
            && r in w'.heap && !Alive(w', r)
            && (forall to :: Act(w', StateCallback(r, to)) == w')
            && (forall notice :: Act(w', LocalCallback(r, notice)) == w')
            && (w'.queue != [] && w'.queue[0].SendTask? && w'.queue[0].session == r ==>
                  forall streamAlive, garbage :: Act(w', RunTask(streamAlive, garbage)) == w'.(queue := w'.queue[1..]))
    decreases |actions|
  {
    if actions != [] {
      StepOnlyCloses(w, actions[0]);
      SoundStep(w, actions[0]);
      LeftoversAreNoOps(Act(w, actions[0]), actions[1..], r);
    }
  }

  // ----- sends through a null sink -----

  /** Tasks for descriptions and candidates are posted only with a sink, and an open session never loses it.
      With `all`, connection notices too. */
  ghost predicate SinksKept(w: World, all: bool) {
    forall i | 0 <= i < |w.queue| && w.queue[i].SendTask? && (all || !w.queue[i].notice.StateNotice?) ::
      Open(w, w.queue[i].session) ==> w.heap[w.queue[i].session].data.sink.Some?
  }

  /** The front task is a connection notice of an open session without a sink. */
  predicate NullSendNext(w: World) {
    && w.queue != [] && w.queue[0].SendTask? && w.queue[0].notice.StateNotice?
    && Open(w, w.queue[0].session) && w.heap[w.queue[0].session].data.sink.None?
  }

  /** Exactly when a step goes through a null sink: the worker runs the connection notice of an open
      session to which no sink has been attached. */
  lemma CrashesIff(w: World, a: Action)
    requires Sound(w) && SinksKept(w, false) && Enabled(a) && !w.crashed
    ensures Act(w, a).crashed <==> a.RunTask? && NullSendNext(w)
  {
    StepIsDirect(w, a);
  }

  /** The session that a step moves to Connected, if any. */
  function Connects(w: World, a: Action): Option<nat> {
    match a
    case StateCallback(r, to) => if PostsNotice(w, r, to) then Some(r) else None
    case RunTask(streamAlive, _) =>
      if w.queue != [] && streamAlive && w.queue[0].DeliverTask? && w.queue[0].input.StateMessage? &&
         w.queue[0].id in w.registry && PostsNotice(w, w.registry[w.queue[0].id], w.queue[0].input.to)
      then Some(w.registry[w.queue[0].id]) else None
    case _ => None
  }

  /** Sessions have a sink by the time they become Connected. */
  ghost predicate AttachesFirst(w: World, actions: seq<Action>)
    decreases |actions|
  {
    actions == [] ||
    (Enabled(actions[0])
     && (Connects(w, actions[0]).Some? ==> w.heap[Connects(w, actions[0]).value].data.sink.Some?)
     && AttachesFirst(Act(w, actions[0]), actions[1..]))
  }

  /** A task that may be posted now: its session is open and has a sink, unless it is the notice of a
      session just connected. */
  ghost predicate PostedFor(w: World, a: Action, t: Task) {
    t.SendTask? ==>
      && Registered(w, t.session)
      && (t.notice.StateNotice? ==> Connects(w, a) == Some(t.session))
      && (!t.notice.StateNotice? ==> w.heap[t.session].data.sink.Some?)
  }

  /** A step removes at most the front task and appends at most one. */
  lemma QueueChange(w: World, a: Action)
    requires Sound(w) && Enabled(a)
    ensures var rest := if a.RunTask? && w.queue != [] then w.queue[1..] else w.queue;
            var q := Act(w, a).queue;
            q == rest || (|q| == |rest| + 1 && q[..|rest|] == rest && PostedFor(w, a, q[|rest|]))
  {
    StepIsDirect(w, a);
    match a
    case RunTask(streamAlive, garbage) =>
      if w.queue != [] {
        TaskQueue(w.(queue := w.queue[1..]), w.queue[0], streamAlive, garbage);
      }
    case StateCallback(r, to) => StateChangeQueue(w, r, to);
    case _ =>
  }

  predicate PostsNotice(w: World, r: nat, to: ConnectionState) {
    Registered(w, r) && StateChanged(w.heap[r].data, to).1.PostNotice?
  }

  lemma StateChangeQueue(w: World, r: nat, to: ConnectionState)
    ensures DirectState(w, r, to).queue == w.queue + if PostsNotice(w, r, to) then [SendTask(r, StateNotice)] else []
  {
  }

  lemma TaskQueue(w: World, task: Task, streamAlive: bool, garbage: ConnectionState)
    ensures DirectTask(w, task, streamAlive, garbage).queue ==
            if streamAlive && task.DeliverTask? && task.input.StateMessage? && task.id in w.registry
               && PostsNotice(w, w.registry[task.id], task.input.to)
            then w.queue + [SendTask(w.registry[task.id], StateNotice)] else w.queue
  {
    if task.DeliverTask? && task.id in w.registry && task.input.StateMessage? {
      StateChangeQueue(w, w.registry[task.id], task.input.to);
    }
  }

  lemma SinksKeptStep(w: World, a: Action, all: bool)
    requires Sound(w) && SinksKept(w, all) && Enabled(a)
    requires all && Connects(w, a).Some? ==> w.heap[Connects(w, a).value].data.sink.Some?
    ensures SinksKept(Act(w, a), all)
  {
    StepOnlyCloses(w, a);
    QueueChange(w, a);
    SinksKeptByFrame(w, Act(w, a), a, all);
  }

  lemma SinksKeptByFrame(w: World, w': World, a: Action, all: bool)
    requires Sound(w) && SinksKept(w, all) && OnlyCloses(w, w')
    requires var rest := if a.RunTask? && w.queue != [] then w.queue[1..] else w.queue;
             w'.queue == rest ||
             (|w'.queue| == |rest| + 1 && w'.queue[..|rest|] == rest && PostedFor(w, a, w'.queue[|rest|]))
    requires all && Connects(w, a).Some? ==> w.heap[Connects(w, a).value].data.sink.Some?
    ensures SinksKept(w', all)
  {
    var rest := if a.RunTask? && w.queue != [] then w.queue[1..] else w.queue;
    forall i | 0 <= i < |w'.queue| && w'.queue[i].SendTask? && (all || !w'.queue[i].notice.StateNotice?)
      ensures Open(w', w'.queue[i].session) ==> w'.heap[w'.queue[i].session].data.sink.Some?
    {
      var t := w'.queue[i];
      if i < |rest| {
        assert w'.queue[..|rest|][i] == rest[i] == t;
        assert t in w.queue;
      }
      assert t.session in w.heap;
    }
  }

  lemma {:induction false} SinksKeptRun(w: World, actions: seq<Action>)
    requires Sound(w) && SinksKept(w, true) && !w.crashed && AttachesFirst(w, actions)
    ensures !Run(w, actions).crashed
    decreases |actions|
  {
    if actions != [] {
      var a := actions[0];
      SoundStep(w, a);
      SinksKeptStep(w, a, true);
      CrashesIff(w, a);
      SinksKeptRun(Act(w, a), actions[1..]);
    }
  }

  lemma {:induction false} UncrashedRun(w: World, actions: seq<Action>)
    requires Sound(w) && SinksKept(w, false) && ValidRun(actions)
    ensures SinksKept(Run(w, actions), false)
    decreases |actions|
  {
    if actions != [] {
      SoundStep(w, actions[0]);
      SinksKeptStep(w, actions[0], false);
      UncrashedRun(Act(w, actions[0]), actions[1..]);
    }
  }

  /** So, after any run without a crash, that is the one way the next step can crash. */
  lemma TheOnlyCrash(actions: seq<Action>, a: Action)
    requires ValidRun(actions) && Enabled(a) && !Run(EMPTY, actions).crashed
    ensures Act(Run(EMPTY, actions), a).crashed <==> a.RunTask? && NullSendNext(Run(EMPTY, actions))
  {
    SoundRun(EMPTY, actions);
    UncrashedRun(EMPTY, actions);
    CrashesIff(Run(EMPTY, actions), a);
  }

  /** If every session has its sink by the time it becomes Connected, no send ever goes through a null sink. */
  lemma AttachedSessionsNeverCrash(actions: seq<Action>)
    requires AttachesFirst(EMPTY, actions)
    ensures !Run(EMPTY, actions).crashed
  {
    SinksKeptRun(EMPTY, actions);
  }

  /** Without it one does: a started session connects before anyone attaches a sink, and the worker runs
      the notice. */
  lemma UnattachedSessionCrashes(w: World, r: nat)
    requires Sound(w) && Registered(w, r) && w.queue == [] && !w.crashed
    requires w.heap[r].data == SessionData(false, true, None, New)
    ensures Run(w, [StateCallback(r, Connecting), StateCallback(r, Connected), RunTask(true, New)]).crashed
  {
    var a, b, c := StateCallback(r, Connecting), StateCallback(r, Connected), RunTask(true, New);
    var w1 := Act(w, a);
    var w2 := Act(w1, b);
    CallbackStep(w, r, Connecting);
    CallbackStep(w1, r, Connected);
    CrashesIff(w2, c);
    ThreeSteps(w, a, b, c);
  }

  lemma ThreeSteps(w: World, a: Action, b: Action, c: Action)
    ensures Run(w, [a, b, c]) == Act(Act(Act(w, a), b), c)
  {
    RunFront(w, a, [b, c]);
    RunFront(Act(w, a), b, [c]);
    RunFront(Act(Act(w, a), b), c, []);
  }

  /** A callback that changes the state without ending the session. */
  lemma CallbackStep(w: World, r: nat, to: ConnectionState)
    requires Sound(w) && Registered(w, r) && !w.crashed
    requires var effect := StateChanged(w.heap[r].data, to).1; effect.Silent? || effect.PostNotice?
    ensures var (d, effect) := StateChanged(w.heap[r].data, to);
            var w' := Act(w, StateCallback(r, to));
            && Sound(w') && Registered(w', r) && w'.heap[r].data == d && !w'.crashed
            && w'.queue == w.queue + if effect.PostNotice? then [SendTask(r, StateNotice)] else []
  {
    SoundStep(w, StateCallback(r, to));
    StepIsDirect(w, StateCallback(r, to));
  }

  lemma RunFront(w: World, a: Action, rest: seq<Action>)
    ensures Run(w, [a] + rest) == Run(Act(w, a), rest)
  {
    assert ([a] + rest)[1..] == rest;
  }

  // ----- descriptions and candidates -----

  /** A step appends at most one answer, and never that the session is closed. */
  lemma AnswersChange(w: World, a: Action)
    requires Sound(w) && Enabled(a)
    ensures AnswersGrow(w.answers, Act(w, a).answers)
  {
    StepIsDirect(w, a);
    match a
    case RunTask(streamAlive, garbage) =>
      if w.queue != [] {
        TaskAnswers(w.(queue := w.queue[1..]), w.queue[0], streamAlive, garbage);
      }
    case StateCallback(r, to) => StateChangeKeepsAnswers(w, r, to);
    case _ =>
  }

  predicate AnswersGrow(before: seq<Answer>, after: seq<Answer>) {
    after == before ||
    (|after| == |before| + 1 && after[..|before|] == before && after[|before|].error != Some(RemoteSessionClosed))
  }

  lemma StateChangeKeepsAnswers(w: World, r: nat, to: ConnectionState)
    ensures DirectState(w, r, to).answers == w.answers
  {
  }

  lemma TaskAnswers(w: World, task: Task, streamAlive: bool, garbage: ConnectionState)
    requires Sound(w)
    ensures AnswersGrow(w.answers, DirectTask(w, task, streamAlive, garbage).answers)
  {
    match task
    case CreateTask(_) =>
    case DeliverTask(id, input) =>
      if id in w.registry {
        match input
        case Remote(wellFormed) => assert Registered(w, w.registry[id]);
        case StateMessage(to) => StateChangeKeepsAnswers(w, w.registry[id], to);
      }
    case SendTask(_, _) =>
  }

  ghost predicate NoneFoundClosed(answers: seq<Answer>) {
    forall i | 0 <= i < |answers| :: answers[i].error != Some(RemoteSessionClosed)
  }

  lemma GrowthFindsNoneClosed(before: seq<Answer>, after: seq<Answer>)
    requires NoneFoundClosed(before) && AnswersGrow(before, after)
    ensures NoneFoundClosed(after)
  {
    forall i | 0 <= i < |after|
      ensures after[i].error != Some(RemoteSessionClosed)
    {
      assert i < |before| ==> after[..|before|][i] == before[i];
    }
  }

  lemma {:induction false} NoneFoundClosedRun(w: World, actions: seq<Action>)
    requires Sound(w) && NoneFoundClosed(w.answers) && ValidRun(actions)
    ensures NoneFoundClosed(Run(w, actions).answers)
    decreases |actions|
  {
    if actions != [] {
      AnswersChange(w, actions[0]);
      GrowthFindsNoneClosed(w.answers, Act(w, actions[0]).answers);
      SoundStep(w, actions[0]);
      NoneFoundClosedRun(Act(w, actions[0]), actions[1..]);
    }
  }

  /** In every run no description or candidate from a stream is ever answered with "session closed": what the
      registry gives out is open, and the two remaining errors are those of a session not started and of a
      malformed input. */
  lemma InputsNeverFindAClosedSession(actions: seq<Action>, i: nat)
    requires ValidRun(actions) && i < |Run(EMPTY, actions).answers|
    ensures Run(EMPTY, actions).answers[i].error != Some(RemoteSessionClosed)
  {
    NoneFoundClosedRun(EMPTY, actions);
  }

  // ----- sessions that can never be released -----

  /** Started and in a state that no change leaves. */
  ghost predicate Stuck(w: World, id: nat) {
    id in w.registry && w.registry[id] in w.heap &&
    var d := w.heap[w.registry[id]].data;
    d.hasPeer && !d.isClosed && (IsFinal(d.state) || d.state.Other?)
  }

  lemma StateChangeLeavesStuck(w: World, r: nat, to: ConnectionState, id: nat)
    requires Sound(w) && Stuck(w, id)
    ensures Stuck(DirectState(w, r, to), id) && DirectState(w, r, to).registry[id] == w.registry[id]
  {
  }

  lemma TaskLeavesStuck(w: World, task: Task, streamAlive: bool, garbage: ConnectionState, id: nat)
    requires Sound(w) && Stuck(w, id)
    ensures var w' := DirectTask(w, task, streamAlive, garbage);
            Stuck(w', id) && w'.registry[id] == w.registry[id]
  {
    match task
    case CreateTask(_) =>
    case DeliverTask(k, input) =>
      if k in w.registry && input.StateMessage? {
        StateChangeLeavesStuck(w, w.registry[k], input.to, id);
      }
    case SendTask(_, _) =>
  }

  lemma StuckStep(w: World, a: Action, id: nat)
    requires Sound(w) && Enabled(a) && Stuck(w, id)
    ensures Stuck(Act(w, a), id) && Act(w, a).registry[id] == w.registry[id]
  {
    StepIsDirect(w, a);
    match a
    case RunTask(streamAlive, garbage) =>
      if w.queue != [] {
        TaskLeavesStuck(w.(queue := w.queue[1..]), w.queue[0], streamAlive, garbage, id);
      }
    case StateCallback(r, to) => StateChangeLeavesStuck(w, r, to, id);
    case _ =>
  }

  /** Disconnected is final but does not terminate: such a session stays registered and open for ever, and
      its id can never be created again. The same holds for a started session in any state without a way out. */
  lemma {:induction false} StuckSessionIsNeverReleased(w: World, actions: seq<Action>, id: nat)
    requires Sound(w) && ValidRun(actions) && Stuck(w, id)
    ensures var w' := Run(w, actions);
            && Stuck(w', id) && w'.registry[id] == w.registry[id]
            && forall garbage :: CreateSession(w', id, garbage) == w'
    decreases |actions|
  {
    if actions != [] {
      StuckStep(w, actions[0], id);
      SoundStep(w, actions[0]);
      StuckSessionIsNeverReleased(Act(w, actions[0]), actions[1..], id);
    }
  }

  ghost predicate ReleasedBy(w: World, actions: seq<Action>, r: nat) {
    ValidRun(actions) && !Registered(Run(w, actions), r)
  }

  lemma EndedByCallback(w: World, r: nat, to: ConnectionState)
    requires Sound(w) && Registered(w, r) && StateChanged(w.heap[r].data, to).1.Terminate?
    ensures ReleasedBy(w, [StateCallback(r, to)], r)
  {
    StateChangeIsDirect(w, r, to);
    RunFront(w, StateCallback(r, to), []);
  }

  /** The change that ends a started session, from each state that has one. */
  function EndingChange(state: ConnectionState): ConnectionState {
    if state.Connecting? then Failed else Closed
  }

  lemma UnstartedCanEnd(w: World, id: nat)
    requires Sound(w) && id in w.registry && !w.heap[w.registry[id]].data.hasPeer
    ensures ReleasedBy(w, [EnvStart(id), StateCallback(w.registry[id], Closed)], w.registry[id])
  {
    var r := w.registry[id];
    SoundStep(w, EnvStart(id));
    EndedByCallback(Act(w, EnvStart(id)), r, Closed);
    RunFront(w, EnvStart(id), [StateCallback(r, Closed)]);
  }

  /** Some run releases a registered session exactly when the session is not stuck: an unstarted one and a
      started one in New, Connecting or Connected can always still be released. */
  lemma ReleasableIff(w: World, id: nat)
    requires Sound(w) && id in w.registry
    ensures (exists actions :: ReleasedBy(w, actions, w.registry[id])) <==> !Stuck(w, id)
  {
    var r := w.registry[id];
    var d := w.heap[r].data;
    assert Registered(w, r) && !d.isClosed;
    if Stuck(w, id) {
      forall actions | ValidRun(actions)
        ensures Registered(Run(w, actions), r)
      {
        SoundRun(w, actions);
        StuckSessionIsNeverReleased(w, actions, id);
      }
    } else if !d.hasPeer {
      UnstartedCanEnd(w, id);
    } else {
      EndedByCallback(w, r, EndingChange(d.state));
    }
  }
}
