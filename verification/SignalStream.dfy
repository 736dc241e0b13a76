/** One signalling stream (SignalStream.cpp): its read loop, the tasks it posts, and its writes. */
module SignalStream {
  import opened Base
  import opened PeerSession
  import opened Sessions
  import opened SessionLaws

  /** A message read: the session it names and its content. */
  datatype Content =
    | Description(sdp: string)
    | Candidate(candidate: string, mid: string, index: int)
    | State(to: ConnectionState)
    | Empty

  datatype Message = Message(id: nat, content: Content)

  /** A write to the peer and whether it went through. */
  datatype Written = Written(text: string, ok: bool)

  /** The task a message becomes: a NEW state asks for a session, anything else is delivered to one. */
  function TasksFor(m: Message): seq<Task> {
    match m.content
    case Description(sdp) => [DeliverTask(m.id, Remote(WellFormed(RemoteDescription(sdp))))]
    case Candidate(c, mid, index) => [DeliverTask(m.id, Remote(WellFormed(RemoteCandidate(c, mid, index))))]
    case State(to) => if to.New? then [CreateTask(m.id)] else [DeliverTask(m.id, StateMessage(to))]
    case Empty => []
  }

  function AllTasks(messages: seq<Message>): seq<Task> {
    if messages == [] then [] else AllTasks(messages[..|messages| - 1]) + TasksFor(messages[|messages| - 1])
  }

  lemma OneMoreMessage(messages: seq<Message>, n: nat)
    requires n < |messages|
    ensures AllTasks(messages[..n + 1]) == AllTasks(messages[..n]) + TasksFor(messages[n])
  {
    assert messages[..n + 1][..n] == messages[..n] && messages[..n + 1][n] == messages[n];
  }

  // ----- writes -----

  /** What other code does to a stream, `send` being one step. */
  datatype Event = SendCall(text: string, ok: bool) | CloseCall

  datatype Side = Side(closed: bool, writes: seq<Written>)

  function Apply(s: Side, e: Event): Side {
    match e
    case SendCall(text, ok) =>
      if s.closed then s else Side(!ok, s.writes + [Written(text, ok)])
    case CloseCall => s.(closed := true)
  }

  function ApplyAll(s: Side, events: seq<Event>): Side
    decreases |events|
  {
    if events == [] then s else ApplyAll(Apply(s, events[0]), events[1..])
  }

  /** Successes, then at most one failure, which closes the stream. */
  predicate WellWritten(s: Side) {
    && (forall i | 0 <= i < |s.writes| :: s.writes[i].ok || i == |s.writes| - 1)
    && (s.writes != [] && !s.writes[|s.writes| - 1].ok ==> s.closed)
  }

  /** In every run the closed flag never reverts, nothing is written after it is set, and the writes are
      successes followed by at most one failure. */
  lemma {:induction false} WritesEndAtFirstFailure(s: Side, events: seq<Event>)
    requires WellWritten(s)
    ensures var s' := ApplyAll(s, events);
            && WellWritten(s')
            && s.writes <= s'.writes
            && (s.closed ==> s' == s)
    decreases |events|
  {
    if events != [] {
      WritesEndAtFirstFailure(Apply(s, events[0]), events[1..]);
    }
  }

  /** The stream after the first `n` rounds of events. */
  function After(s: Side, events: seq<seq<Event>>, n: nat): Side {
    if n == 0 then s
    else
      var before := After(s, events, n - 1);
      if n - 1 < |events| then ApplyAll(before, events[n - 1]) else before
  }

  /** The stream was open after each of the first `n` rounds. */
  predicate OpenThrough(s: Side, events: seq<seq<Event>>, n: nat) {
    n == 0 || (OpenThrough(s, events, n - 1) && !After(s, events, n).closed)
  }

  // ----- the class -----

  class SignalStream {
    var closed: bool
    var writes: seq<Written>
    var posted: seq<Task>

    function View(): Side
      reads this
    {
      Side(closed, writes)
    }

    constructor ()
      ensures View() == Side(false, []) && posted == []
    {
      closed, writes, posted := false, [], [];
    }

    /** `ok` is what the transport answers. */
    method Send(text: string, ok: bool)
      modifies this
      ensures writes == old(writes) + if old(closed) then [] else [Written(text, ok)]
      ensures closed <==> old(closed) || !ok
      ensures View() == Apply(old(View()), SendCall(text, ok)) && posted == old(posted)
    {
      if closed {
        return;
      }
      writes := writes + [Written(text, ok)];
      if !ok {
        closed := true;
      }
    }

    method Close()
      modifies this
      ensures closed && writes == old(writes)
      ensures View() == Apply(old(View()), CloseCall) && posted == old(posted)
    {
      closed := true;
    }

    method HandleMessage(m: Message)
      modifies this`posted
      ensures posted == old(posted) + TasksFor(m)
    {
      match m.content {
        case Description(sdp) => posted := posted + [DeliverTask(m.id, Remote(WellFormed(RemoteDescription(sdp))))];
        case Candidate(c, mid, index) =>
          posted := posted + [DeliverTask(m.id, Remote(WellFormed(RemoteCandidate(c, mid, index))))];
        case State(to) =>
          if to == New {
            posted := posted + [CreateTask(m.id)];
          } else {
            posted := posted + [DeliverTask(m.id, StateMessage(to))];
          }
        case Empty =>
      }
    }

    /** The read loop over the messages that will arrive; entry k of `events` is what others do to the stream
        while read number k waits. Exactly the messages before the first read that finds the stream closed are
        posted, in order. */
    method Start(input: seq<Message>, events: seq<seq<Event>>) returns (handled: nat)
      modifies this
      ensures handled <= |input|
      ensures posted == old(posted) + AllTasks(input[..handled])
      ensures old(closed) ==> handled == 0 && View() == old(View())
      ensures !old(closed) ==> View() == After(old(View()), events, handled + 1)
      ensures !old(closed) ==> OpenThrough(old(View()), events, handled)
      ensures handled < |input| ==> closed
    {
      ghost var s0 := View();
      handled := 0;
      assert input[..0] == [];
      while !closed
        invariant handled <= |input|
        invariant posted == old(posted) + AllTasks(input[..handled])
        invariant View() == After(s0, events, handled)
        invariant closed == s0.closed && (closed ==> handled == 0)
        invariant !s0.closed ==> OpenThrough(s0, events, handled)
        decreases |input| - handled, !closed
      {
        var more := ReadOne(input, events, handled);
        if !more {
          break;
        }
        OneMoreMessage(input, handled);
        handled := handled + 1;
      }
    }

    /** The body of the loop: the read waits, then its message is dropped if the stream was closed meanwhile. */
    method ReadOne(input: seq<Message>, events: seq<seq<Event>>, n: nat) returns (more: bool)
      requires n <= |input|
      modifies this
      ensures View() == if n < |events| then ApplyAll(old(View()), events[n]) else old(View())
      ensures more <==> n < |input| && !closed
      ensures posted == old(posted) + if more then TasksFor(input[n]) else []
    {
      if n < |events| {
        Happen(events[n]);
      }
      if n == |input| || closed {
        return false;
      }
      HandleMessage(input[n]);
      more := true;
    }

    method Happen(events: seq<Event>)
      modifies this
      ensures View() == ApplyAll(old(View()), events) && posted == old(posted)
    {
      ghost var s0 := View();
      var i := 0;
      while i < |events|
        invariant i <= |events|
        invariant ApplyAll(s0, events) == ApplyAll(View(), events[i..]) && posted == old(posted)
      {
        var e := events[i];
        assert events[i..][0] == e && events[i..][1..] == events[i + 1..];
        match e {
          case SendCall(text, ok) => Send(text, ok);
          case CloseCall => Close();
        }
        i := i + 1;
      }
    }
  }

  // ----- a stream's messages in the whole system -----

  /** What a message does once its task comes up: NEW makes a session under a free id; another state is reported
      to the session of that id; a description or candidate is answered by it, a candidate being well formed with
      any index from 0 on; and messages for unknown ids, or without content, do nothing. */
  lemma MessageTakesEffect(w: World, m: Message, rest: seq<Task>, garbage: ConnectionState)
    requires Sound(w) && w.queue == TasksFor(m) + rest && !m.content.Empty?
    ensures var w', base, known := Act(w, RunTask(true, garbage)), w.(queue := rest), m.id in w.registry;
            match m.content
            case State(New) =>
              if known then w' == base
              else m.id in w'.registry && Open(w', w'.registry[m.id]) && w'.registry[m.id] !in w.heap
            case State(to) => w' == if known then Act(base, StateCallback(w.registry[m.id], to)) else base
            case Description(sdp) =>
              w' == if known then base.(answers := w.answers + [AnswerFrom(w, m.id, sdp != "")]) else base
            case Candidate(c, mid, index) =>
              var wellFormed := c != "" && mid != "" && index >= 0;
              w' == if known then base.(answers := w.answers + [AnswerFrom(w, m.id, wellFormed)]) else base
  {
    assert (TasksFor(m) + rest)[1..] == rest;
    if w.queue[0].CreateTask? {
      CreateLaw(w, true, garbage);
    } else {
      DeliverLaw(w, true, garbage);
    }
  }

  lemma EmptyMessageIsNothing(m: Message)
    ensures TasksFor(m) == [] <==> m.content.Empty?
  {
  }

  function PostActions(tasks: seq<Task>): seq<Action> {
    seq(|tasks|, i requires 0 <= i < |tasks| => StreamPosts(tasks[i]))
  }

  /** The tasks a stream posts are steps of the session system: they enter its queue in the order the messages
      were read. */
  lemma {:induction false} StreamFeedsSystem(w: World, tasks: seq<Task>)
    requires forall i | 0 <= i < |tasks| :: !tasks[i].SendTask?
    ensures Sessions.ValidRun(PostActions(tasks))
    ensures Sessions.Run(w, PostActions(tasks)) == w.(queue := w.queue + tasks)
    decreases |tasks|
  {
    if tasks != [] {
      var w1 := w.(queue := w.queue + [tasks[0]]);
      StreamFeedsSystem(w1, tasks[1..]);
      assert PostActions(tasks)[1..] == PostActions(tasks[1..]);
      assert w.queue + tasks == w.queue + [tasks[0]] + tasks[1..];
    } else {
      assert w.queue + tasks == w.queue;
    }
  }
}
