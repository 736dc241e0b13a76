/** What each step of the session system does, said on the registry, the objects, the queue and the sends
    before and after it; and what has been sent after a whole run. */
module SessionLaws {
  import opened Base
  import opened PeerSession
  import opened Sessions

  // ----- reports of the connection state -----

  /** The world after session `r` has ended. */
  ghost predicate Ended(w: World, w': World, r: nat)
    requires r in w.heap
  {
    && r in w'.heap && w'.heap[r].data.isClosed && w'.heap[r].data.sink.None? && !w'.heap[r].data.hasPeer
    && w'.heap[r].destroyed && w'.heap[r].refs == 0
    && w'.registry == w.registry - {w.heap[r].id}
    && w'.heap.Keys == w.heap.Keys && (forall other | other in w.heap && other != r :: w'.heap[other] == w.heap[other])
    && w'.queue == w.queue && w'.sent == w.sent && w'.answers == w.answers
    && w'.next == w.next && w'.crashed == w.crashed
  }

  /** Which reports end a registered session (Closed when New or Connected, Failed when Connecting), which
      change its state and keep it, and that all others change nothing, as does any report for a session that
      is gone. Only becoming Connected posts anything. */
  lemma StateReportLaw(w: World, r: nat, to: ConnectionState)
    requires Sound(w)
    ensures var w' := Act(w, StateCallback(r, to));
            if !Registered(w, r) then w' == w
            else
              var o, from := w.heap[r], w.heap[r].data.state;
              if Releases(from, to) then Ended(w, w', r)
              else if Moves(from, to) then
                w' == w.(heap := w.heap[r := o.(data := o.data.(state := to))],
                         queue := w.queue + if to.Connected? then [SendTask(r, StateNotice)] else [])
              else w' == w
  {
    StateChangeIsDirect(w, r, to);
  }

  // ----- the other callbacks and calls -----

  /** A description or candidate of the peer library is queued for sending exactly for a registered session
      with a sink. */
  lemma LocalCallbackLaw(w: World, r: nat, notice: Notice)
    requires Sound(w) && !notice.StateNotice?
    ensures Act(w, LocalCallback(r, notice)) ==
            if Registered(w, r) && w.heap[r].data.sink.Some? then w.(queue := w.queue + [SendTask(r, notice)]) else w
  {
    HandlersAreDirect(w, r, notice);
  }

  /** A start gives an unstarted registered session its peer and the state New, and is nothing otherwise. */
  lemma StartLaw(w: World, id: nat)
    requires Sound(w)
    ensures Act(w, EnvStart(id)) ==
            if id in w.registry && !w.heap[w.registry[id]].data.hasPeer then
              var o := w.heap[w.registry[id]];
              w.(heap := w.heap[w.registry[id] := o.(data := o.data.(hasPeer := true, state := New))])
            else w
  {
    if id in w.registry {
      assert Registered(w, w.registry[id]);
      assert w.heap[w.registry[id] := w.heap[w.registry[id]]] == w.heap;
    }
  }

  lemma AttachLaw(w: World, id: nat, sink: Option<nat>)
    requires Sound(w)
    ensures Act(w, EnvAttach(id, sink)) ==
            if id in w.registry && sink.Some? then
              var o := w.heap[w.registry[id]];
              w.(heap := w.heap[w.registry[id] := o.(data := o.data.(sink := sink))])
            else w
  {
    if id in w.registry {
      assert Registered(w, w.registry[id]);
      assert w.heap[w.registry[id] := w.heap[w.registry[id]]] == w.heap;
    }
  }

  // ----- the worker -----

  /** The worker creates a session exactly when the stream is still there and the id is free: a new object,
      open, unstarted, without a sink. */
  lemma CreateLaw(w: World, streamAlive: bool, garbage: ConnectionState)
    requires Sound(w) && w.queue != [] && w.queue[0].CreateTask?
    ensures var id := w.queue[0].id;
            Act(w, RunTask(streamAlive, garbage)) ==
            if streamAlive && id !in w.registry then
              w.(queue := w.queue[1..], registry := w.registry[id := w.next], next := w.next + 1,
                 heap := w.heap[w.next := Object(id, SessionData(isClosed := false, hasPeer := false, sink := None,
                                                                 state := garbage), 1, false)])
            else w.(queue := w.queue[1..])
  {
  }

  /** After a session has ended its id is free: a creation that would have been ignored before now makes a new
      session, and the old one stays closed. */
  lemma EndedIdIsFree(w: World, r: nat, to: ConnectionState, garbage: ConnectionState)
    requires Sound(w) && Registered(w, r) && Releases(w.heap[r].data.state, to)
    requires w.queue != [] && w.queue[0] == CreateTask(w.heap[r].id)
    ensures Act(w, RunTask(true, garbage)) == w.(queue := w.queue[1..])
    ensures var w' := Act(Act(w, StateCallback(r, to)), RunTask(true, garbage));
            && Registered(w', w.next) && Open(w', w.next) && w'.heap[w.next].id == w.heap[r].id
            && !Registered(w', r) && !Open(w', r)
  {
    CreateLaw(w, true, garbage);
    StateReportLaw(w, r, to);
    SoundStep(w, StateCallback(r, to));
    CreateLaw(Act(w, StateCallback(r, to)), true, garbage);
  }

  /** What a registered session answers to an input. */
  ghost function AnswerFrom(w: World, id: nat, wellFormed: bool): Answer
    requires Sound(w) && id in w.registry
  {
    Answer(w.registry[id],
           if !w.heap[w.registry[id]].data.hasPeer then Some(NotStarted)
           else if !wellFormed then Some(InvalidInput) else None)
  }

  /** A stream's message reaches the session registered under its id, if the stream and the session are there:
      a report as a callback would, a description or candidate with an answer. */
  lemma DeliverLaw(w: World, streamAlive: bool, garbage: ConnectionState)
    requires Sound(w) && w.queue != [] && w.queue[0].DeliverTask?
    ensures var id, rest := w.queue[0].id, w.(queue := w.queue[1..]);
            Act(w, RunTask(streamAlive, garbage)) ==
            if !streamAlive || id !in w.registry then rest
            else
              match w.queue[0].input
              case StateMessage(to) => Act(rest, StateCallback(w.registry[id], to))
              case Remote(wellFormed) =>
                rest.(answers := w.answers + [AnswerFrom(w, id, wellFormed)])
  {
    if w.queue[0].id in w.registry {
      assert Registered(w, w.registry[w.queue[0].id]);
    }
  }

  /** The send that the worker makes when its front task comes up, if it makes one. */
  function SendDue(w: World): seq<Sent> {
    if w.queue != [] && w.queue[0].SendTask? && Registered(w, w.queue[0].session)
       && w.heap[w.queue[0].session].data.sink.Some?
    then
      var o := w.heap[w.queue[0].session];
      [Sent(sink := o.data.sink.value, id := o.id, notice := w.queue[0].notice, state := o.data.state)]
    else []
  }

  /** A send task writes to the sink of its session, under the session's id, or is dropped with its session. */
  lemma SendLaw(w: World, streamAlive: bool, garbage: ConnectionState)
    requires Sound(w) && w.queue != [] && w.queue[0].SendTask?
    ensures var r := w.queue[0].session;
            Act(w, RunTask(streamAlive, garbage)) ==
            w.(queue := w.queue[1..], sent := w.sent + SendDue(w),
               crashed := w.crashed || (Registered(w, r) && w.heap[r].data.sink.None?))
  {
    HandlersAreDirect(w.(queue := w.queue[1..]), w.queue[0].session, w.queue[0].notice);
  }

  /** Nothing but a send task of a registered session with a sink writes to a sink. */
  lemma SentChange(w: World, a: Action)
    requires Sound(w) && Enabled(a)
    ensures Act(w, a).sent == w.sent + if a.RunTask? then SendDue(w) else []
  {
    match a
    case StreamPosts(_) =>
    case LocalCallback(r, notice) => LocalCallbackLaw(w, r, notice);
    case StateCallback(r, to) => StateReportLaw(w, r, to);
    case EnvStart(id) => StartLaw(w, id);
    case EnvAttach(id, sink) => AttachLaw(w, id, sink);
    case RunTask(streamAlive, garbage) =>
      if w.queue != [] {
        TaskSends(w, streamAlive, garbage);
      }
  }

  lemma TaskSends(w: World, streamAlive: bool, garbage: ConnectionState)
    requires Sound(w) && w.queue != []
    ensures Act(w, RunTask(streamAlive, garbage)).sent == w.sent + SendDue(w)
  {
    match w.queue[0]
    case CreateTask(_) => CreateLaw(w, streamAlive, garbage);
    case SendTask(_, _) => SendLaw(w, streamAlive, garbage);
    case DeliverTask(id, input) =>
      DeliverLaw(w, streamAlive, garbage);
      if id in w.registry && input.StateMessage? {
        var rest := w.(queue := w.queue[1..]);
        StateReportLaw(rest, w.registry[id], input.to);
      }
  }

  // ----- what has been sent after a run -----

  /** A send task that leaves the queue, with the sink and the state of its session at that moment. */
  datatype Leaving = Leaving(session: nat, notice: Notice, sink: Option<nat>, state: ConnectionState)

  function LeavingOf(w: World, a: Action): seq<Leaving> {
    if a.RunTask? && w.queue != [] && w.queue[0].SendTask? && w.queue[0].session in w.heap then
      var d := w.heap[w.queue[0].session].data;
      [Leaving(w.queue[0].session, w.queue[0].notice, d.sink, d.state)]
    else []
  }

  function Leavings(w: World, actions: seq<Action>): seq<Leaving>
    decreases |actions|
  {
    if actions == [] then [] else LeavingOf(w, actions[0]) + Leavings(Act(w, actions[0]), actions[1..])
  }

  /** No session goes away while a send of it is queued. */
  ghost predicate NoneLost(w: World, actions: seq<Action>)
    decreases |actions|
  {
    actions == [] ||
    ((actions[0].RunTask? && w.queue != [] && w.queue[0].SendTask? ==> Registered(w, w.queue[0].session))
     && NoneLost(Act(w, actions[0]), actions[1..]))
  }

  /** The sends are, one for one and in order, the send tasks that left the queue: each to the sink its session
      had then, under that session's id. */
  ghost predicate SendsAre(heap: map<nat, Object>, sent: seq<Sent>, left: seq<Leaving>) {
    && |sent| == |left|
    && forall i | 0 <= i < |left| ::
         && left[i].session in heap && left[i].sink.Some?
         && sent[i] == Sent(left[i].sink.value, heap[left[i].session].id, left[i].notice, left[i].state)
  }

  /** Objects keep their ids. */
  lemma IdsStay(w: World, a: Action, r: nat)
    requires Sound(w) && Enabled(a) && r in w.heap
    ensures r in Act(w, a).heap && Act(w, a).heap[r].id == w.heap[r].id
  {
    StepOnlyCloses(w, a);
    match a
    case StreamPosts(_) =>
    case LocalCallback(k, notice) => LocalCallbackLaw(w, k, notice);
    case StateCallback(k, to) => StateReportKeepsIds(w, k, to, r);
    case EnvStart(id) => StartLaw(w, id);
    case EnvAttach(id, sink) => AttachLaw(w, id, sink);
    case RunTask(streamAlive, garbage) =>
      if w.queue != [] {
        TaskKeepsIds(w, streamAlive, garbage, r);
      }
  }

  lemma StateReportKeepsIds(w: World, k: nat, to: ConnectionState, r: nat)
    requires Sound(w) && r in w.heap
    ensures r in Act(w, StateCallback(k, to)).heap && Act(w, StateCallback(k, to)).heap[r].id == w.heap[r].id
  {
    StateChangeIsDirect(w, k, to);
  }

  lemma TaskKeepsIds(w: World, streamAlive: bool, garbage: ConnectionState, r: nat)
    requires Sound(w) && w.queue != [] && r in w.heap
    ensures r in Act(w, RunTask(streamAlive, garbage)).heap
    ensures Act(w, RunTask(streamAlive, garbage)).heap[r].id == w.heap[r].id
  {
    match w.queue[0]
    case CreateTask(_) => CreateLaw(w, streamAlive, garbage);
    case SendTask(_, _) => SendLaw(w, streamAlive, garbage);
    case DeliverTask(id, input) =>
      DeliverLaw(w, streamAlive, garbage);
      if id in w.registry && input.StateMessage? {
        StateReportKeepsIds(w.(queue := w.queue[1..]), w.registry[id], input.to, r);
      }
  }

  lemma {:induction false} IdsStayRun(w: World, actions: seq<Action>, r: nat)
    requires Sound(w) && ValidRun(actions) && r in w.heap
    ensures r in Run(w, actions).heap && Run(w, actions).heap[r].id == w.heap[r].id
    decreases |actions|
  {
    if actions != [] {
      IdsStay(w, actions[0], r);
      SoundStep(w, actions[0]);
      IdsStayRun(Act(w, actions[0]), actions[1..], r);
    }
  }

  lemma {:induction false} AttachesFirstIsValid(w: World, actions: seq<Action>)
    requires AttachesFirst(w, actions)
    ensures ValidRun(actions)
    decreases |actions|
  {
    if actions != [] {
      AttachesFirstIsValid(Act(w, actions[0]), actions[1..]);
    }
  }

  /** The one send of a step, and the one task that leaves for it. */
  lemma SendsOfStep(w: World, a: Action, heap: map<nat, Object>)
    requires Sound(w) && SinksKept(w, true) && Enabled(a)
    requires a.RunTask? && w.queue != [] && w.queue[0].SendTask? ==> Registered(w, w.queue[0].session)
    requires forall r | r in w.heap :: r in heap && heap[r].id == w.heap[r].id
    ensures SendsAre(heap, if a.RunTask? then SendDue(w) else [], LeavingOf(w, a))
  {
    if a.RunTask? && w.queue != [] && w.queue[0].SendTask? {
      assert Open(w, w.queue[0].session);
    }
  }

  lemma SendsJoin(heap: map<nat, Object>, a: seq<Sent>, b: seq<Sent>, la: seq<Leaving>, lb: seq<Leaving>)
    requires SendsAre(heap, a, la) && SendsAre(heap, b, lb)
    ensures SendsAre(heap, a + b, la + lb)
  {
  }

  lemma AllIdsStay(w: World, actions: seq<Action>)
    requires Sound(w) && AttachesFirst(w, actions)
    ensures forall r | r in w.heap :: r in Run(w, actions).heap && Run(w, actions).heap[r].id == w.heap[r].id
  {
    AttachesFirstIsValid(w, actions);
    forall r | r in w.heap
      ensures r in Run(w, actions).heap && Run(w, actions).heap[r].id == w.heap[r].id
    {
      IdsStayRun(w, actions, r);
    }
  }

  /** The sends of a run: those of its first step, then those of the rest. */
  function Made(w: World, actions: seq<Action>): seq<Sent>
    decreases |actions|
  {
    if actions == [] then []
    else (if actions[0].RunTask? then SendDue(w) else []) + Made(Act(w, actions[0]), actions[1..])
  }

  lemma {:induction false} SentByRun(w: World, actions: seq<Action>)
    requires Sound(w) && ValidRun(actions)
    ensures Run(w, actions).sent == w.sent + Made(w, actions)
    decreases |actions|
  {
    if actions != [] {
      SoundStep(w, actions[0]);
      SentChange(w, actions[0]);
      SentByRun(Act(w, actions[0]), actions[1..]);
      SentJoin(w.sent, if actions[0].RunTask? then SendDue(w) else [], Act(w, actions[0]).sent,
               Made(Act(w, actions[0]), actions[1..]), Run(w, actions).sent);
    }
  }

  lemma SentJoin(before: seq<Sent>, first: seq<Sent>, between: seq<Sent>, later: seq<Sent>, after: seq<Sent>)
    requires between == before + first && after == between + later
    ensures after == before + (first + later)
  {
  }

  lemma {:induction false} SendsOfRun(w: World, actions: seq<Action>)
    requires Sound(w) && SinksKept(w, true) && AttachesFirst(w, actions) && NoneLost(w, actions)
    ensures SendsAre(Run(w, actions).heap, Made(w, actions), Leavings(w, actions))
    decreases |actions|
  {
    if actions != [] {
      var a, w' := actions[0], Act(w, actions[0]);
      SoundStep(w, a);
      SinksKeptStep(w, a, true);
      SendsOfRun(w', actions[1..]);
      AllIdsStay(w, actions);
      SendsOfStep(w, a, Run(w, actions).heap);
      SendsJoin(Run(w, actions).heap, if a.RunTask? then SendDue(w) else [], Made(w', actions[1..]),
                LeavingOf(w, a), Leavings(w', actions[1..]));
    }
  }

  /** In every run in which sinks are attached before Connected and no session goes away with a send queued,
      what has been sent is exactly what has left the queue to be sent: in order, each once, each to the sink its
      session had and under that session's own id. */
  lemma EverySendReachesItsSink(actions: seq<Action>)
    requires AttachesFirst(EMPTY, actions) && NoneLost(EMPTY, actions)
    ensures SendsAre(Run(EMPTY, actions).heap, Run(EMPTY, actions).sent, Leavings(EMPTY, actions))
  {
    AttachesFirstIsValid(EMPTY, actions);
    SentByRun(EMPTY, actions);
    SendsOfRun(EMPTY, actions);
    assert EMPTY.sent + Made(EMPTY, actions) == Made(EMPTY, actions);
  }
}
