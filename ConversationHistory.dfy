/** The per-session conversation history store: a map from session id to the
    list of messages added under it, oldest first. */
module ConversationHistory {

  type Histories = map<string, seq<string>>

  /** The history of a session; empty for an id with no entry. */
  function HistoryOf(h: Histories, sessionId: string): seq<string>
  {
    if sessionId in h then h[sessionId] else []
  }

  /** The store after AddMessage: the message at the end of the session's
      history, the entry created if there was none. */
  function Appended(h: Histories, sessionId: string, message: string): (r: Histories)
    ensures r.Keys == h.Keys + {sessionId}
    ensures HistoryOf(r, sessionId) == HistoryOf(h, sessionId) + [message]
    ensures forall id :: id != sessionId ==> HistoryOf(r, id) == HistoryOf(h, id)
  {
    h[sessionId := HistoryOf(h, sessionId) + [message]]
  }

  /** The store after ClearHistory: a known session's history emptied, its key
      kept; an unknown id changes nothing. */
  function Cleared(h: Histories, sessionId: string): (r: Histories)
    ensures r.Keys == h.Keys && |r| == |h|
    ensures HistoryOf(r, sessionId) == []
    ensures forall id :: id != sessionId ==> HistoryOf(r, id) == HistoryOf(h, id)
  {
    if sessionId in h then h[sessionId := []] else h
  }

  /** The store after RemoveSession: the key gone, the rest as it was. */
  function Removed(h: Histories, sessionId: string): (r: Histories)
    ensures r.Keys == h.Keys - {sessionId}
    ensures HistoryOf(r, sessionId) == []
    ensures forall id :: id != sessionId ==> HistoryOf(r, id) == HistoryOf(h, id)
  {
    h - {sessionId}
  }

  /** Adding several messages to one session, in order. */
  function AppendedAll(h: Histories, sessionId: string, messages: seq<string>): Histories
    decreases |messages|
  {
    if messages == [] then h
    else AppendedAll(Appended(h, sessionId, messages[0]), sessionId, messages[1..])
  }

  /** A session's history lists its messages in the order they were added,
      after whatever it held before. */
  lemma {:induction false} HistoryKeepsOrder(h: Histories, sessionId: string, messages: seq<string>)
    ensures HistoryOf(AppendedAll(h, sessionId, messages), sessionId) == HistoryOf(h, sessionId) + messages
    decreases |messages|
  {
    if messages != [] {
      var h' := Appended(h, sessionId, messages[0]);
      HistoryKeepsOrder(h', sessionId, messages[1..]);
      assert [messages[0]] + messages[1..] == messages;
    }
  }

  /** Removing twice is removing once. */
  lemma RemoveIdempotent(h: Histories, sessionId: string)
    ensures Removed(Removed(h, sessionId), sessionId) == Removed(h, sessionId)
  {
  }

  /** Clearing an unknown id creates no entry. */
  lemma ClearUnknownIsNoOp(h: Histories, sessionId: string)
    requires sessionId !in h
    ensures Cleared(h, sessionId) == h
  {
  }

  /** The store. */
  class ConversationHistoryService {
    var histories: Histories

    constructor ()
      ensures histories == map[]
    {
      histories := map[];
    }

    /** GetOrAdd then Add. */
    method AddMessage(sessionId: string, message: string)
      modifies this`histories
      ensures histories == Appended(old(histories), sessionId, message)
    {
      var history: seq<string>;
      if sessionId in histories {
        history := histories[sessionId];
      } else {
        history := [];
        histories := histories[sessionId := history];
      }
      histories := histories[sessionId := history + [message]];
    }

    /** Clears a known session's history in place; unknown ids are ignored. */
    method ClearHistory(sessionId: string)
      modifies this`histories
      ensures histories == Cleared(old(histories), sessionId)
    {
      if sessionId in histories {
        histories := histories[sessionId := []];
      }
    }

    /** The session's messages, oldest first; empty for an unknown id. */
    method GetHistory(sessionId: string) returns (history: seq<string>)
      ensures history == HistoryOf(histories, sessionId)
      ensures sessionId !in histories ==> history == []
    {
      if sessionId in histories {
        return histories[sessionId];
      }
      return [];
    }

    /** TryRemove: absent ids are ignored. */
    method RemoveSession(sessionId: string)
      modifies this`histories
      ensures histories == Removed(old(histories), sessionId)
    {
      histories := histories - {sessionId};
    }

    /** The number of ids with an entry, cleared ones included. */
    method GetActiveSessionCount() returns (count: int)
      ensures count == |histories.Keys|
    {
      return |histories|;
    }
  }
}
