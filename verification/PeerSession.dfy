/** One peer session (PeerSession.cpp): its state, the handlers that change it, and the bound on what any
    stream of events can make it do. */
module PeerSession {
  import opened Base

  /** `Other` is a number outside the enumeration, which the open wire format lets through. */
  datatype ConnectionState = New | Connecting | Connected | Disconnected | Failed | Closed | Other(code: int)

  /** A sink is known by number. `state` has no initial value until `start`. */
  datatype SessionData = SessionData(isClosed: bool, hasPeer: bool, sink: Option<nat>, state: ConnectionState)

  predicate IsValidStateTransition(from: ConnectionState, to: ConnectionState) {
    match from
    case New => to.Connecting? || to.Closed?
    case Connecting => to.Connected? || to.Failed?
    case Connected => to.Disconnected? || to.Closed?
    case _ => false
  }

  /** The changes that end a session. */
  predicate Releases(from: ConnectionState, to: ConnectionState) {
    (from.New? && to.Closed?) || (from.Connecting? && to.Failed?) || (from.Connected? && to.Closed?)
  }

  /** The changes that keep it. */
  predicate Moves(from: ConnectionState, to: ConnectionState) {
    (from.New? && to.Connecting?) || (from.Connecting? && to.Connected?) || (from.Connected? && to.Disconnected?)
  }

  function Created(garbage: ConnectionState): SessionData {
    SessionData(false, false, None, garbage)
  }

  function Started(s: SessionData): SessionData {
    if s.isClosed || s.hasPeer then s else s.(hasPeer := true, state := New)
  }

  datatype AttachError = SessionClosed | InvalidSignalStream

  function Attached(s: SessionData, sink: Option<nat>): (SessionData, Option<AttachError>) {
    if s.isClosed then (s, Some(SessionClosed))
    else if sink.None? then (s, Some(InvalidSignalStream))
    else (s.(sink := sink), None)
  }

  function ClosedDown(s: SessionData): SessionData {
    s.(hasPeer := false, sink := None, isClosed := true)
  }

  /** What a state change sets off besides the change. */
  datatype Effect = Ignored | Silent | PostNotice | Terminate

  function StateChanged(s: SessionData, to: ConnectionState): (SessionData, Effect) {
    if s.isClosed || !IsValidStateTransition(s.state, to) then (s, Ignored)
    else (s.(state := to), if to.Connected? then PostNotice else if to.Failed? || to.Closed? then Terminate else Silent)
  }

  /** What the other side sends for the peer library. */
  datatype Remote = RemoteDescription(sdp: string) | RemoteCandidate(candidate: string, mid: string, index: int)

  predicate WellFormed(input: Remote) {
    match input
    case RemoteDescription(sdp) => sdp != ""
    case RemoteCandidate(candidate, mid, index) => candidate != "" && mid != "" && index >= 0
  }

  datatype RemoteError = RemoteSessionClosed | NotStarted | InvalidInput

  function RemoteOutcome(s: SessionData, wellFormed: bool): Option<RemoteError> {
    if s.isClosed then Some(RemoteSessionClosed)
    else if !s.hasPeer then Some(NotStarted)
    else if !wellFormed then Some(InvalidInput)
    else None
  }

  // ----- the class -----

  datatype Notice = LocalDescription | LocalCandidate | StateNotice

  /** A posted closure holding its session weakly. */
  datatype Posting = Posting(session: PeerSession, notice: Notice)

  /** The dispatcher as a session sees it. */
  class Outbox {
    var tasks: seq<Posting>

    constructor ()
      ensures tasks == []
    {
      tasks := [];
    }

    method Post(t: Posting)
      modifies this
      ensures tasks == old(tasks) + [t]
    {
      tasks := tasks + [t];
    }
  }

  class PeerSession {
    const sessionId: nat
    const dispatcher: Outbox
    var isClosed: bool
    var hasPeer: bool
    var sink: Option<nat>
    var state: ConnectionState
    /** What the peer library has been given. */
    var handed: seq<Remote>

    function View(): SessionData
      reads this
    {
      SessionData(isClosed, hasPeer, sink, state)
    }

    constructor (id: nat, dispatcher: Outbox, garbage: ConnectionState)
      ensures sessionId == id && this.dispatcher == dispatcher && View() == Created(garbage)
      ensures handed == []
    {
      sessionId, this.dispatcher := id, dispatcher;
      isClosed, hasPeer, sink, state, handed := false, false, None, garbage, [];
    }

    method Start()
      modifies this
      ensures handed == old(handed) && isClosed == old(isClosed) && sink == old(sink)
      ensures if old(isClosed || hasPeer) then View() == old(View()) else hasPeer && state == New
      ensures View() == Started(old(View()))
    {
      if isClosed {
        return;
      }
      if hasPeer {
        return;
      }
      hasPeer := true;
      state := New;
    }

    method AttachSignalStream(signalStream: Option<nat>) returns (error: Option<AttachError>)
      modifies this
      ensures handed == old(handed)
      ensures View() == old(View()).(sink := if error.None? then signalStream else old(sink))
      ensures error.None? <==> !old(isClosed) && signalStream.Some?
      ensures error == Some(SessionClosed) <==> old(isClosed)
      ensures (View(), error) == Attached(old(View()), signalStream)
    {
      if isClosed {
        return Some(SessionClosed);
      }
      if signalStream.None? {
        return Some(InvalidSignalStream);
      }
      sink := signalStream;
      error := None;
    }

    /** The peer library gets exactly what is accepted. */
    method SetRemoteDescription(sdp: string) returns (error: Option<RemoteError>)
      modifies this`handed
      ensures error.None? <==> !isClosed && hasPeer && sdp != ""
      ensures error == RemoteOutcome(old(View()), WellFormed(RemoteDescription(sdp)))
      ensures handed == old(handed) + if error.None? then [RemoteDescription(sdp)] else []
    {
      if isClosed {
        return Some(RemoteSessionClosed);
      }
      if !hasPeer {
        return Some(NotStarted);
      }
      if sdp == "" {
        return Some(InvalidInput);
      }
      handed := handed + [RemoteDescription(sdp)];
      error := None;
    }

    method AddIceCandidate(candidate: string, sdpMid: string, sdpMLineIndex: int) returns (error: Option<RemoteError>)
      modifies this`handed
      ensures error.None? <==> !isClosed && hasPeer && candidate != "" && sdpMid != "" && sdpMLineIndex >= 0
      ensures error == RemoteOutcome(old(View()), WellFormed(RemoteCandidate(candidate, sdpMid, sdpMLineIndex)))
      ensures handed == old(handed) + if error.None? then [RemoteCandidate(candidate, sdpMid, sdpMLineIndex)] else []
    {
      if isClosed {
        return Some(RemoteSessionClosed);
      }
      if !hasPeer {
        return Some(NotStarted);
      }
      if candidate == "" || sdpMid == "" || sdpMLineIndex < 0 {
        return Some(InvalidInput);
      }
      handed := handed + [RemoteCandidate(candidate, sdpMid, sdpMLineIndex)];
      error := None;
    }

    /** A local description or candidate from the peer library is sent on only when a sink is attached. */
    method HandleLocal(notice: Notice)
      requires !notice.StateNotice?
      modifies dispatcher
      ensures dispatcher.tasks == old(dispatcher.tasks)
                + if !isClosed && sink.Some? then [Posting(this, notice)] else []
    {
      if isClosed {
        return;
      }
      if sink.Some? {
        dispatcher.Post(Posting(this, notice));
      }
    }

    /** `terminated` stands for the call of the termination callback. */
    method HandleConnectionStateChange(newState: ConnectionState) returns (terminated: bool)
      modifies this, dispatcher
      ensures View() == if !old(isClosed) && (Moves(old(state), newState) || Releases(old(state), newState))
                        then old(View()).(state := newState) else old(View())
      ensures terminated <==> !old(isClosed) && Releases(old(state), newState)
      ensures dispatcher.tasks == old(dispatcher.tasks)
                + if !old(isClosed) && old(state).Connecting? && newState.Connected?
                  then [Posting(this, StateNotice)] else []
      ensures View() == StateChanged(old(View()), newState).0
      ensures terminated <==> StateChanged(old(View()), newState).1.Terminate?
      ensures dispatcher.tasks == old(dispatcher.tasks)
                + if StateChanged(old(View()), newState).1.PostNotice? then [Posting(this, StateNotice)] else []
    {
      if isClosed {
        return false;
      }
      if !IsValidStateTransition(state, newState) {
        return false;
      }
      state := newState;
      if state == Connected {
        dispatcher.Post(Posting(this, StateNotice));
      }
      terminated := state == Failed || state == Closed;
    }

    method Close()
      modifies this
      ensures isClosed && !hasPeer && sink.None? && state == old(state)
      ensures View() == ClosedDown(old(View()))
    {
      hasPeer := false;
      sink := None;
      isClosed := true;
    }
  }

  // ----- any stream of events -----

  datatype Event =
    | Change(to: ConnectionState)
    | CallStart
    | Attach(sink: Option<nat>)
    | CallClose

  /** A session and what it has done: accepted changes, posted connection notices, terminations. The
      termination callback closes the session. */
  datatype Tally = Tally(data: SessionData, accepted: nat, notices: nat, terminations: nat)

  function One(b: bool): nat {
    if b then 1 else 0
  }

  function Feed(t: Tally, e: Event): Tally {
    match e
    case Change(to) =>
      var (d, effect) := StateChanged(t.data, to);
      Tally(if effect.Terminate? then ClosedDown(d) else d,
            t.accepted + One(!effect.Ignored?), t.notices + One(effect.PostNotice?),
            t.terminations + One(effect.Terminate?))
    case CallStart => t.(data := Started(t.data))
    case Attach(sink) => t.(data := Attached(t.data, sink).0)
    case CallClose => t.(data := ClosedDown(t.data))
  }

  function FeedAll(t: Tally, events: seq<Event>): Tally
    decreases |events|
  {
    if events == [] then t else FeedAll(Feed(t, events[0]), events[1..])
  }

  function Rank(s: ConnectionState): nat {
    match s
    case New => 0
    case Connecting => 1
    case Connected => 2
    case _ => 3
  }

  predicate IsFinal(s: ConnectionState) {
    s.Disconnected? || s.Failed? || s.Closed?
  }

  /** Started, and so beyond a second `start`: the peer goes away only when the session closes. */
  predicate IsStarted(d: SessionData) {
    (d.hasPeer || d.isClosed) && !d.state.Other?
  }

  lemma FeedRaisesRank(t: Tally, e: Event)
    requires IsStarted(t.data)
    ensures var t' := Feed(t, e);
            && IsStarted(t'.data)
            && t'.accepted + Rank(t.data.state) <= t.accepted + Rank(t'.data.state)
            && t'.notices + One(t.data.state.Connected? || Rank(t.data.state) == 3) <=
               t.notices + One(t'.data.state.Connected? || Rank(t'.data.state) == 3)
            && t'.terminations - t.terminations ==
               One(t'.data.state.Failed? || t'.data.state.Closed?) - One(t.data.state.Failed? || t.data.state.Closed?)
            && (IsFinal(t.data.state) ==> t'.data.state == t.data.state && t'.accepted == t.accepted)
            && (t'.accepted > t.accepted ==> Rank(t.data.state) < Rank(t'.data.state))
  {
  }

  lemma {:induction false} FeedAllRaisesRank(t: Tally, events: seq<Event>)
    requires IsStarted(t.data)
    ensures var t' := FeedAll(t, events);
            && t'.accepted + Rank(t.data.state) <= t.accepted + Rank(t'.data.state)
            && t'.notices + One(t.data.state.Connected? || Rank(t.data.state) == 3) <=
               t.notices + One(t'.data.state.Connected? || Rank(t'.data.state) == 3)
            && t'.terminations - t.terminations ==
               One(t'.data.state.Failed? || t'.data.state.Closed?) - One(t.data.state.Failed? || t.data.state.Closed?)
            && (IsFinal(t.data.state) ==> t'.data.state == t.data.state && t'.accepted == t.accepted)
    decreases |events|
  {
    if events != [] {
      FeedRaisesRank(t, events[0]);
      FeedAllRaisesRank(Feed(t, events[0]), events[1..]);
    }
  }

  /** From a started session, over any stream of events of any length: at most three changes are accepted,
      at most one connection notice is posted, the termination callback runs at most once and exactly when
      the session ends in Failed or Closed, and nothing leaves Disconnected, Failed or Closed. */
  lemma StartedSessionIsBounded(sink: Option<nat>, before: seq<Event>, after: seq<Event>)
    ensures var start := Tally(SessionData(false, true, sink, New), 0, 0, 0);
            var mid := FeedAll(start, before);
            var end := FeedAll(mid, after);
            && mid.accepted <= 3 && mid.notices <= 1
            && mid.terminations == One(mid.data.state.Failed? || mid.data.state.Closed?)
            && (IsFinal(mid.data.state) ==> end.data.state == mid.data.state && end.accepted == mid.accepted)
  {
    var start := Tally(SessionData(false, true, sink, New), 0, 0, 0);
    FeedAllRaisesRank(start, before);
    FeedAllStarted(start, before);
    FeedAllRaisesRank(FeedAll(start, before), after);
  }

  lemma {:induction false} FeedAllStarted(t: Tally, events: seq<Event>)
    requires IsStarted(t.data)
    ensures IsStarted(FeedAll(t, events).data)
    decreases |events|
  {
    if events != [] {
      FeedRaisesRank(t, events[0]);
      FeedAllStarted(Feed(t, events[0]), events[1..]);
    }
  }
}
