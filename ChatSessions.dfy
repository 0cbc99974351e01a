/** The session registry: per-session records with activity timestamps, kept
    in a map keyed by session id.  Time is a tick count (100 ns, as .NET's
    DateTime and TimeSpan count it) passed in by the caller; new ids come
    from the caller too, standing for Guid.NewGuid. */
module ChatSessions {
  import opened Bytes

  /** TimeSpan.FromMinutes(30), in ticks. */
  const SessionTimeout: int := 30 * 60 * 10_000_000

  /** A session idle since `lastActivity` has expired at `now` when strictly
      more than `timeout` has passed. */
  predicate Expired(now: int, lastActivity: int, timeout: int)
  {
    now - lastActivity > timeout
  }

  /** A session idle for exactly the timeout has not expired; one tick more and it has. */
  lemma ExpiryIsStrict(lastActivity: int, timeout: int)
    ensures !Expired(lastActivity + timeout, lastActivity, timeout)
    ensures Expired(lastActivity + timeout + 1, lastActivity, timeout)
  {
  }

  /** Right after an activity update no non-negative timeout has run out. */
  lemma ActivityResetsExpiry(now: int, timeout: int)
    requires timeout >= 0
    ensures !Expired(now, now, timeout)
  {
  }

  /** Without a new activity, expiry is permanent as time moves on. */
  lemma ExpiryPersists(lastActivity: int, timeout: int, now: int, later: int)
    requires Expired(now, lastActivity, timeout) && now <= later
    ensures Expired(later, lastActivity, timeout)
  {
  }

  /** One chat session. */
  class ChatSession {
    var sessionId: string
    var audioBuffer: seq<Byte>
    var isRecording: bool
    var createdAt: int
    var lastActivity: int

    /** `new ChatSession { SessionId = id }` at time `now`: an empty buffer,
        not recording, created and active now. */
    constructor (id: string, now: int)
      ensures sessionId == id && audioBuffer == [] && !isRecording
      ensures createdAt == now && lastActivity == now
    {
      sessionId := id;
      audioBuffer := [];
      isRecording := false;
      createdAt := now;
      lastActivity := now;
    }

    /** Stamps the session as active at `now`; nothing else changes. */
    method UpdateActivity(now: int)
      modifies this`lastActivity
      ensures lastActivity == now
      ensures forall timeout :: timeout >= 0 ==> !IsExpired(now, timeout)
    {
      lastActivity := now;
    }

    /** Idle for strictly more than `timeout` ticks at `now`. */
    predicate IsExpired(now: int, timeout: int)
      reads this`lastActivity
      ensures IsExpired(now, timeout) && timeout >= 0 ==> lastActivity < now
      ensures now <= lastActivity + timeout ==> !IsExpired(now, timeout)
    {
      Expired(now, lastActivity, timeout)
    }
  }

  /** The registry. */
  class SessionManager {
    var sessions: map<string, ChatSession>

    /** Every session is stored under its own id. */
    ghost predicate Valid()
      reads this, sessions.Values
    {
      forall id :: id in sessions ==> sessions[id].sessionId == id
    }

    /** The ids whose sessions have expired at `now`. */
    ghost function ExpiredIds(now: int): (ids: set<string>)
      reads this, sessions.Values
      ensures ids <= sessions.Keys
      ensures forall id :: id in sessions ==> (id in ids <==> sessions[id].IsExpired(now, SessionTimeout))
    {
      set id | id in sessions && sessions[id].IsExpired(now, SessionTimeout)
    }

    /** An empty registry (the cleanup timer is not modelled). */
    constructor ()
      ensures sessions == map[] && Valid()
    {
      sessions := map[];
    }

    /** Creates a session under the id `newId` and returns that id.  TryAdd
        leaves the registry alone if the id is already taken. */
    method CreateSession(newId: string, now: int) returns (sessionId: string)
      requires Valid()
      modifies this`sessions
      ensures Valid()
      ensures sessionId == newId && sessionId in sessions
      ensures newId in old(sessions) ==> sessions == old(sessions)
      ensures newId !in old(sessions) ==>
                && sessions.Keys == old(sessions).Keys + {newId}
                && |sessions| == |old(sessions)| + 1
                && (forall id :: id in old(sessions) ==> sessions[id] == old(sessions)[id])
                && fresh(sessions[newId])
                && sessions[newId].audioBuffer == [] && !sessions[newId].isRecording
                && sessions[newId].createdAt == now && sessions[newId].lastActivity == now
    {
      sessionId := newId;
      var session := new ChatSession(sessionId, now);
      if sessionId !in sessions {
        sessions := sessions[sessionId := session];
      }
    }

    /** Looks a session up; a hit stamps it as active at `now`. */
    method GetSession(sessionId: string, now: int) returns (session: ChatSession?)
      requires Valid()
      modifies if sessionId in sessions then {sessions[sessionId]} else {}
      ensures Valid()
      ensures sessionId !in sessions ==> session == null
      ensures sessionId in sessions ==>
                && session == sessions[sessionId]
                && session.lastActivity == now
                && session.sessionId == old(session.sessionId)
                && session.audioBuffer == old(session.audioBuffer)
                && session.isRecording == old(session.isRecording)
                && session.createdAt == old(session.createdAt)
    {
      if sessionId in sessions {
        session := sessions[sessionId];
        session.UpdateActivity(now);
        return;
      }
      return null;
    }

    /** Removes a session; true iff there was one under the id. */
    method RemoveSession(sessionId: string) returns (removed: bool)
      modifies this`sessions
      ensures removed <==> sessionId in old(sessions)
      ensures sessions == old(sessions) - {sessionId}
      ensures old(Valid()) ==> Valid()
    {
      if sessionId in sessions {
        sessions := sessions - {sessionId};
        return true;
      }
      return false;
    }

    /** Takes the ids of the sessions expired at `now`, then removes each of them. */
    method CleanupExpiredSessions(now: int)
      modifies this`sessions
      ensures sessions == old(sessions) - old(ExpiredIds(now))
      ensures forall id :: id in sessions ==> !sessions[id].IsExpired(now, SessionTimeout)
      ensures forall id :: id in old(sessions) && !old(sessions[id].IsExpired(now, SessionTimeout)) ==> id in sessions
      ensures old(Valid()) ==> Valid()
    {
      var expiredSessions := set id | id in sessions && sessions[id].IsExpired(now, SessionTimeout);
      var remaining := expiredSessions;
      while remaining != {}
        invariant remaining <= expiredSessions
        invariant sessions == old(sessions) - (expiredSessions - remaining)
        decreases remaining
      {
        var id :| id in remaining;
        var _ := RemoveSession(id);
        remaining := remaining - {id};
      }
    }

    method GetActiveSessionCount() returns (count: int)
      ensures count == |sessions|
    {
      return |sessions|;
    }

    /** The ids of all sessions, each once, in the order the keys are enumerated. */
    method GetActiveSessions() returns (ids: seq<string>)
      ensures |ids| == |sessions|
      ensures forall id :: id in ids <==> id in sessions
      ensures forall i, j :: 0 <= i < j < |ids| ==> ids[i] != ids[j]
    {
      ids := [];
      var keys := sessions.Keys;
      while keys != {}
        invariant keys <= sessions.Keys
        invariant forall id :: id in ids <==> id in sessions && id !in keys
        invariant forall i, j :: 0 <= i < j < |ids| ==> ids[i] != ids[j]
        invariant |ids| + |keys| == |sessions|
        decreases keys
      {
        var id :| id in keys;
        ids := ids + [id];
        keys := keys - {id};
      }
    }

    /** Empties the registry (closing the sessions' sockets is not modelled). */
    method Dispose()
      modifies this`sessions
      ensures sessions == map[]
    {
      sessions := map[];
    }
  }

  /** The count reported is the number of ids listed. */
  method CountMatchesSessions(manager: SessionManager) returns (count: int, ids: seq<string>)
    ensures count == |ids|
  {
    count := manager.GetActiveSessionCount();
    ids := manager.GetActiveSessions();
  }
}
