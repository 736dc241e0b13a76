/** The session registry as an object (SessionManager.cpp). */
module SessionManager {
  import opened Base
  import opened PeerSession

  datatype CreateError = AlreadyExists

  class SessionManager {
    var sessions: map<nat, PeerSession>
    const dispatcher: Outbox

    ghost predicate Valid()
      reads this, sessions.Values
    {
      forall id | id in sessions ::
        sessions[id].sessionId == id && sessions[id].dispatcher == dispatcher && !sessions[id].isClosed
    }

    constructor (dispatcher: Outbox)
      ensures Valid() && this.dispatcher == dispatcher && sessions == map[]
    {
      this.dispatcher := dispatcher;
      sessions := map[];
    }

    method CreateSession(id: nat, garbage: ConnectionState) returns (error: Option<CreateError>)
      requires Valid()
      modifies this
      ensures Valid()
      ensures id in old(sessions) ==> error == Some(AlreadyExists) && sessions == old(sessions)
      ensures id !in old(sessions) ==>
                && error == None && sessions.Keys == old(sessions).Keys + {id}
                && fresh(sessions[id]) && sessions[id].View() == Created(garbage)
                && forall k | k in old(sessions) :: sessions[k] == old(sessions)[k]
    {
      if id in sessions {
        return Some(AlreadyExists);
      }
      var session := new PeerSession(id, dispatcher, garbage);
      sessions := sessions[id := session];
      error := None;
    }

    /** The one registered session that carries the id, an open one, or none when no session carries it. */
    method GetSession(id: nat) returns (r: Option<PeerSession>)
      requires Valid()
      ensures r.Some? ==> r.value in sessions.Values && r.value.sessionId == id && !r.value.isClosed
      ensures r.None? <==> id !in sessions
    {
      r := if id in sessions then Some(sessions[id]) else None;
    }

    method CloseSession(id: nat)
      requires Valid()
      modifies this, sessions.Values
      ensures Valid() && sessions == old(sessions) - {id}
      ensures id in old(sessions) ==> old(sessions)[id].View() == ClosedDown(old(sessions[id].View()))
      ensures forall k | k in old(sessions) && k != id :: old(sessions)[k].View() == old(sessions[k].View())
    {
      if id !in sessions {
        return;
      }
      assert forall k | k in sessions && k != id :: sessions[k] != sessions[id];
      sessions[id].Close();
      sessions := sessions - {id};
    }

    /** A description or candidate for a registered session, which never finds the session closed. */
    method DeliverRemote(id: nat, input: Remote) returns (answer: Option<Option<RemoteError>>)
      requires Valid()
      modifies sessions.Values
      ensures Valid()
      ensures answer.None? <==> id !in sessions
      ensures answer.Some? ==>
                var s := sessions[id];
                && answer.value != Some(RemoteSessionClosed)
                && (answer.value.None? <==> s.hasPeer && WellFormed(input))
                && s.handed == old(s.handed) + if answer.value.None? then [input] else []
      ensures forall k | k in sessions :: sessions[k].View() == old(sessions[k].View())
      ensures forall k | k in sessions && k != id :: sessions[k].handed == old(sessions[k].handed)
    {
      var found := GetSession(id);
      if found.None? {
        return None;
      }
      assert forall k | k in sessions && k != id :: sessions[k] != sessions[id];
      var error;
      match input {
        case RemoteDescription(sdp) => error := found.value.SetRemoteDescription(sdp);
        case RemoteCandidate(candidate, mid, index) => error := found.value.AddIceCandidate(candidate, mid, index);
      }
      answer := Some(error);
    }

    /** A state message or callback for a registered session, termination callback included. */
    method DeliverStateChange(id: nat, newState: ConnectionState)
      requires Valid()
      modifies this, sessions.Values, dispatcher
      ensures Valid()
      ensures id !in old(sessions) ==> sessions == old(sessions) && dispatcher.tasks == old(dispatcher.tasks)
      ensures id in old(sessions) ==>
                var s, from := old(sessions)[id], old(sessions[id].state);
                && (Releases(from, newState) ==>
                      sessions == old(sessions) - {id} && s.View() == SessionData(true, false, None, newState))
                && (Moves(from, newState) ==>
                      sessions == old(sessions) && s.View() == old(sessions[id].View()).(state := newState))
                && (!Releases(from, newState) && !Moves(from, newState) ==>
                      sessions == old(sessions) && s.View() == old(sessions[id].View()))
                && dispatcher.tasks == old(dispatcher.tasks)
                     + (if from.Connecting? && newState.Connected? then [Posting(s, StateNotice)] else [])
      ensures forall k | k in old(sessions) && k != id :: old(sessions)[k].View() == old(sessions[k].View())
    {
      var found := GetSession(id);
      if found.None? {
        return;
      }
      assert forall k | k in sessions && k != id :: sessions[k] != sessions[id];
      var terminated := found.value.HandleConnectionStateChange(newState);
      if terminated {
        CloseSession(found.value.sessionId);
      }
    }
  }
}
