/** The GigaChat client's per-session chat history: a store from session id
    to message list, updated in place, with truncation after each append. */
module GigaChat {
  import opened Wrappers
  import Types

  /** One `{"role": ..., "content": ...}` history entry. */
  datatype ChatMessage = ChatMessage(role: string, content: string)

  const SystemRole: string := "system"
  const UserRole: string := "user"
  const AssistantRole: string := "assistant"

  function Min(a: int, b: int): int {
    if a <= b then a else b
  }

  /** Python's `s[start:]` for any integer `start`: a negative start counts
      from the end, and one past either end clamps. */
  function SliceFrom<T>(s: seq<T>, start: int): (r: seq<T>)
    ensures |r| <= |s| && r == s[|s| - |r|..]
    ensures start < 0 ==> |r| == Min(|s|, -start)
    ensures 0 <= start <= |s| ==> |r| == |s| - start
    ensures start > |s| ==> r == []
  {
    if start >= 0 then (if start <= |s| then s[start..] else [])
    else if -start <= |s| then s[|s| + start..] else s
  }

  /** The list `add_to_history` stores once the new entry has been appended to
      `h`: kept when it is at most `maxHistory` long; otherwise a leading
      system entry followed by `h[-(maxHistory - 1):]`, or `h[-maxHistory:]`. */
  function Truncated(h: seq<ChatMessage>, maxHistory: int): seq<ChatMessage>
    requires h != []
  {
    if |h| > maxHistory then
      if h[0].role == SystemRole then
        var keepCount := maxHistory - 1;
        [h[0]] + SliceFrom(h, -keepCount)
      else SliceFrom(h, -maxHistory)
    else h
  }

  /** `add_to_history` on a session whose list is `h`. */
  function Appended(h: seq<ChatMessage>, entry: ChatMessage, maxHistory: int): seq<ChatMessage> {
    Truncated(h + [entry], maxHistory)
  }

  /** With a limit of at least two, the stored list is as long as the
      appended one, capped at the limit. */
  lemma TruncatedLength(h: seq<ChatMessage>, maxHistory: int)
    requires h != [] && maxHistory >= 2
    ensures |Truncated(h, maxHistory)| == Min(|h|, maxHistory)
  {
  }

  /** An append keeps a history within a limit of at least two within it. */
  lemma AppendedWithinLimit(h: seq<ChatMessage>, entry: ChatMessage, maxHistory: int)
    requires maxHistory >= 2 && |h| <= maxHistory
    ensures |Appended(h, entry, maxHistory)| <= maxHistory
    ensures |h| < maxHistory ==> Appended(h, entry, maxHistory) == h + [entry]
  {
    TruncatedLength(h + [entry], maxHistory);
  }

  /** The two truncation cases in plain slices: a too-long list starting with
      a system entry keeps that entry and the last `maxHistory - 1` entries;
      any other too-long list keeps its last `maxHistory` entries. */
  lemma TruncatedKeepsRecent(h: seq<ChatMessage>, maxHistory: int)
    requires maxHistory >= 2 && |h| > maxHistory
    ensures h[0].role == SystemRole ==> Truncated(h, maxHistory) == [h[0]] + h[|h| - (maxHistory - 1)..]
    ensures h[0].role != SystemRole ==> Truncated(h, maxHistory) == h[|h| - maxHistory..]
  {
  }

  /** With a positive limit the newest entry survives truncation. */
  lemma TruncatedKeepsLast(h: seq<ChatMessage>, maxHistory: int)
    requires h != [] && maxHistory >= 1
    ensures var r := Truncated(h, maxHistory); r != [] && r[|r| - 1] == h[|h| - 1]
  {
  }

  /** With a positive limit an appended entry ends the stored list. */
  lemma AppendedEndsWith(h: seq<ChatMessage>, entry: ChatMessage, maxHistory: int)
    requires maxHistory >= 1
    ensures var r := Appended(h, entry, maxHistory); r != [] && r[|r| - 1] == entry
  {
    TruncatedKeepsLast(h + [entry], maxHistory);
  }

  /** A leading system entry is never dropped. */
  lemma TruncatedKeepsSystemHead(h: seq<ChatMessage>, maxHistory: int)
    requires h != [] && h[0].role == SystemRole
    ensures var r := Truncated(h, maxHistory); r != [] && r[0] == h[0]
  {
  }

  /** With a limit of one and a system head, `keep_count` is 0 and `h[-0:]`
      is the whole list, so the list grows by the duplicated head instead of
      shrinking. */
  lemma LimitOneDuplicatesHead(h: seq<ChatMessage>)
    requires |h| >= 2 && h[0].role == SystemRole
    ensures Truncated(h, 1) == [h[0]] + h
    ensures |Truncated(h, 1)| == |h| + 1
  {
  }

  /** The outcome of the GigaChat API call inside `chat`. */
  datatype ApiOutcome =
    | Raised                   // the call raised; `chat` logs it and returns None
    | NoChoices                // a falsy response or one without choices
    | Answered(content: string) // the content of the first choice

  function Reply(outcome: ApiOutcome): (r: Option<string>)
    ensures r.Some? <==> outcome.Answered?
    ensures outcome.Answered? ==> r.value == outcome.content
  {
    if outcome.Answered? then Some(outcome.content) else None
  }

  /** What `chat` sends and stores for a truthy session id whose history is
      `h`: the system prompt when the history is empty and a prompt is given,
      then the user message, then, after the call, the answer if any. */
  datatype Exchange = Exchange(sent: seq<ChatMessage>, stored: seq<ChatMessage>)

  function SessionExchange(h: seq<ChatMessage>, maxHistory: int, message: string, systemPrompt: Option<string>,
                           outcome: ApiOutcome): Exchange
  {
    var withPrompt :=
      if h == [] && Types.NonEmpty(systemPrompt) then Appended([], ChatMessage(SystemRole, systemPrompt.value), maxHistory)
      else h;
    var sent := Appended(withPrompt, ChatMessage(UserRole, message), maxHistory);
    var stored := if outcome.Answered? then Appended(sent, ChatMessage(AssistantRole, outcome.content), maxHistory) else sent;
    Exchange(sent, stored)
  }

  /** The user message is the last entry sent; the stored history ends with
      the answer when there is one and with the user message otherwise, so a
      failed call leaves the user message in the history. */
  lemma ExchangeOrder(h: seq<ChatMessage>, maxHistory: int, message: string, systemPrompt: Option<string>, outcome: ApiOutcome)
    requires maxHistory >= 1
    ensures var e := SessionExchange(h, maxHistory, message, systemPrompt, outcome);
            && e.sent != [] && e.sent[|e.sent| - 1] == ChatMessage(UserRole, message)
            && e.stored != []
            && e.stored[|e.stored| - 1] ==
               (if outcome.Answered? then ChatMessage(AssistantRole, outcome.content) else ChatMessage(UserRole, message))
  {
    var e := SessionExchange(h, maxHistory, message, systemPrompt, outcome);
    var withPrompt :=
      if h == [] && Types.NonEmpty(systemPrompt) then Appended([], ChatMessage(SystemRole, systemPrompt.value), maxHistory)
      else h;
    AppendedEndsWith(withPrompt, ChatMessage(UserRole, message), maxHistory);
    if outcome.Answered? {
      AppendedEndsWith(e.sent, ChatMessage(AssistantRole, outcome.content), maxHistory);
    }
  }

  /** The system prompt opens a fresh session and stays at its head; a
      session with history gets no second system prompt. */
  lemma ExchangeSystemPrompt(h: seq<ChatMessage>, maxHistory: int, message: string, systemPrompt: Option<string>, outcome: ApiOutcome)
    requires maxHistory >= 1
    ensures var e := SessionExchange(h, maxHistory, message, systemPrompt, outcome);
            h == [] && Types.NonEmpty(systemPrompt) ==>
              e.sent[0] == ChatMessage(SystemRole, systemPrompt.value) && e.stored[0] == e.sent[0]
    ensures h != [] ==> SessionExchange(h, maxHistory, message, systemPrompt, outcome).sent == Appended(h, ChatMessage(UserRole, message), maxHistory)
  {
    if h == [] && Types.NonEmpty(systemPrompt) {
      var e := SessionExchange(h, maxHistory, message, systemPrompt, outcome);
      var sys := ChatMessage(SystemRole, systemPrompt.value);
      assert Appended([], sys, maxHistory) == [sys];
      TruncatedKeepsSystemHead([sys] + [ChatMessage(UserRole, message)], maxHistory);
      if outcome.Answered? {
        TruncatedKeepsSystemHead(e.sent + [ChatMessage(AssistantRole, outcome.content)], maxHistory);
      }
    }
  }

  /** With a limit of at least two, a session that was within the limit stays
      within it after a whole exchange. */
  lemma ExchangeWithinLimit(h: seq<ChatMessage>, maxHistory: int, message: string, systemPrompt: Option<string>, outcome: ApiOutcome)
    requires maxHistory >= 2 && |h| <= maxHistory
    ensures |SessionExchange(h, maxHistory, message, systemPrompt, outcome).sent| <= maxHistory
    ensures |SessionExchange(h, maxHistory, message, systemPrompt, outcome).stored| <= maxHistory
  {
    var e := SessionExchange(h, maxHistory, message, systemPrompt, outcome);
    var withPrompt :=
      if h == [] && Types.NonEmpty(systemPrompt) then Appended([], ChatMessage(SystemRole, systemPrompt.value), maxHistory)
      else h;
    AppendedWithinLimit([], ChatMessage(SystemRole, if systemPrompt.Some? then systemPrompt.value else ""), maxHistory);
    AppendedWithinLimit(withPrompt, ChatMessage(UserRole, message), maxHistory);
    if outcome.Answered? {
      AppendedWithinLimit(e.sent, ChatMessage(AssistantRole, outcome.content), maxHistory);
    }
  }

  /** The messages of a one-off `chat` without a session: the system prompt,
      when given, then the user message. */
  function OneOffMessages(message: string, systemPrompt: Option<string>): (r: seq<ChatMessage>)
    ensures |r| == (if Types.NonEmpty(systemPrompt) then 2 else 1)
    ensures r[|r| - 1] == ChatMessage(UserRole, message)
    ensures Types.NonEmpty(systemPrompt) ==> r[0] == ChatMessage(SystemRole, systemPrompt.value)
  {
    var messages := [ChatMessage(UserRole, message)];
    if Types.NonEmpty(systemPrompt) then [ChatMessage(SystemRole, systemPrompt.value)] + messages else messages
  }

  /** The history a session id has in `sessions`, empty when it has none. */
  function HistoryOf(sessions: map<string, seq<ChatMessage>>, id: string): seq<ChatMessage> {
    if id in sessions then sessions[id] else []
  }

  /** The store after `chat`: only a truthy session id records the exchange. */
  function SessionsAfterChat(sessions: map<string, seq<ChatMessage>>, maxHistory: int, message: string,
                             sessionId: Option<string>, systemPrompt: Option<string>, outcome: ApiOutcome)
    : map<string, seq<ChatMessage>>
  {
    if Types.NonEmpty(sessionId) then
      var id := sessionId.value;
      sessions[id := SessionExchange(HistoryOf(sessions, id), maxHistory, message, systemPrompt, outcome).stored]
    else sessions
  }

  /** The session ids in insertion order after `chat`. */
  function OrderAfterChat(order: seq<string>, sessions: map<string, seq<ChatMessage>>, sessionId: Option<string>): seq<string> {
    if Types.NonEmpty(sessionId) && sessionId.value !in sessions then order + [sessionId.value] else order
  }

  /** The messages `chat` sends to the API. */
  function MessagesSent(sessions: map<string, seq<ChatMessage>>, maxHistory: int, message: string,
                        sessionId: Option<string>, systemPrompt: Option<string>): seq<ChatMessage>
  {
    if Types.NonEmpty(sessionId) then
      // the outcome does not affect what is sent
      SessionExchange(HistoryOf(sessions, sessionId.value), maxHistory, message, systemPrompt, NoChoices).sent
    else OneOffMessages(message, systemPrompt)
  }

  /** Only the chatting session changes, and a session-less chat changes
      nothing. */
  lemma ChatTouchesOneSession(sessions: map<string, seq<ChatMessage>>, maxHistory: int, message: string,
                              sessionId: Option<string>, systemPrompt: Option<string>, outcome: ApiOutcome, other: string)
    requires !Types.NonEmpty(sessionId) || other != sessionId.value
    ensures var after := SessionsAfterChat(sessions, maxHistory, message, sessionId, systemPrompt, outcome);
            (other in after <==> other in sessions) && (other in sessions ==> after[other] == sessions[other])
    ensures !Types.NonEmpty(sessionId) ==> SessionsAfterChat(sessions, maxHistory, message, sessionId, systemPrompt, outcome) == sessions
  {
  }

  /** No id occurs twice. */
  predicate Distinct(ids: seq<string>) {
    ids == [] || (ids[0] !in ids[1..] && Distinct(ids[1..]))
  }

  lemma {:induction false} DistinctAppend(ids: seq<string>, x: string)
    requires Distinct(ids) && x !in ids
    ensures Distinct(ids + [x])
  {
    if ids != [] {
      assert (ids + [x])[1..] == ids[1..] + [x];
      DistinctAppend(ids[1..], x);
    }
  }

  function Elements(ids: seq<string>): set<string> {
    set id | id in ids
  }

  /** `ids` without `x`, in order. */
  function Without(ids: seq<string>, x: string): (r: seq<string>)
    ensures forall y :: y in r <==> y in ids && y != x
    ensures |r| <= |ids|
  {
    if ids == [] then []
    else if ids[0] == x then Without(ids[1..], x)
    else [ids[0]] + Without(ids[1..], x)
  }

  lemma {:induction false} WithoutDistinct(ids: seq<string>, x: string)
    requires Distinct(ids)
    ensures Distinct(Without(ids, x))
  {
    if ids != [] {
      WithoutDistinct(ids[1..], x);
      if ids[0] != x {
        var w := Without(ids[1..], x);
        assert ([ids[0]] + w)[1..] == w;
      }
    }
  }

  /** Removing an absent id changes nothing, so clearing is idempotent. */
  lemma {:induction false} WithoutAbsent(ids: seq<string>, x: string)
    requires x !in ids
    ensures Without(ids, x) == ids
  {
    if ids != [] {
      assert ids[0] != x;
      WithoutAbsent(ids[1..], x);
      assert ids == [ids[0]] + ids[1..];
    }
  }

  /** A distinct list has as many elements as the set of its elements. */
  lemma {:induction false} DistinctCardinality(ids: seq<string>)
    requires Distinct(ids)
    ensures |Elements(ids)| == |ids|
  {
    if ids != [] {
      var rest := ids[1..];
      DistinctCardinality(rest);
      assert Elements(ids) == Elements(rest) + {ids[0]} by {
        assert ids == [ids[0]] + rest;
      }
    }
  }

  /** Storing twice under one key keeps the second list. */
  lemma StoreTwice(sessions: map<string, seq<ChatMessage>>, id: string, first: seq<ChatMessage>, second: seq<ChatMessage>)
    ensures sessions[id := first][id := second] == sessions[id := second]
  {
  }

  class GigaChatClient {
    const maxHistory: int
    /** Session id to message list. */
    var sessions: map<string, seq<ChatMessage>>
    /** The session ids in the order the dict received them. */
    var order: seq<string>

    ghost predicate Valid()
      reads this
    {
      && Distinct(order)
      && sessions.Keys == Elements(order)
    }

    constructor (maxHistory: int)
      ensures this.maxHistory == maxHistory
      ensures sessions == map[] && order == [] && Valid()
    {
      this.maxHistory := maxHistory;
      sessions := map[];
      order := [];
    }

    /** `get_session_history`: an unknown id gets an empty list. */
    method GetSessionHistory(id: string) returns (history: seq<ChatMessage>)
      requires Valid()
      modifies this`sessions, this`order
      ensures Valid()
      ensures history == HistoryOf(old(sessions), id)
      ensures sessions == old(sessions)[id := history]
      ensures order == if id in old(sessions) then old(order) else old(order) + [id]
      ensures id in old(sessions) ==> sessions == old(sessions)
    {
      if id !in sessions {
        DistinctAppend(order, id);
        sessions := sessions[id := []];
        order := order + [id];
      }
      history := sessions[id];
    }

    /** `add_to_history`: appends the entry, then truncates. */
    method AddToHistory(id: string, role: string, content: string)
      requires Valid()
      modifies this`sessions, this`order
      ensures Valid()
      ensures sessions == old(sessions)[id := Appended(HistoryOf(old(sessions), id), ChatMessage(role, content), maxHistory)]
      ensures order == if id in old(sessions) then old(order) else old(order) + [id]
    {
      var history := GetSessionHistory(id);
      history := history + [ChatMessage(role, content)];
      history := TruncateHistory(history);
      StoreHistory(id, history);
    }

    /** The truncation step of `add_to_history`: a list longer than the limit
      keeps a leading system entry and the last `maxHistory - 1` entries, or
      else its last `maxHistory` entries. */
    method TruncateHistory(history: seq<ChatMessage>) returns (r: seq<ChatMessage>)
      requires history != []
      ensures r == Truncated(history, maxHistory)
    {
      r := history;
      if |history| > maxHistory {
        if history[0].role == SystemRole {
          var keepCount := maxHistory - 1;
          r := [history[0]] + SliceFrom(history, -keepCount);
        } else {
          r := SliceFrom(history, -maxHistory);
        }
      }
    }

    /** The assignment `self.sessions[session_id] = ...` to a stored id. */
    method StoreHistory(id: string, history: seq<ChatMessage>)
      requires Valid() && id in sessions
      modifies this`sessions
      ensures Valid()
      ensures sessions == old(sessions)[id := history]
    {
      sessions := sessions[id := history];
      assert sessions.Keys == old(sessions).Keys;
    }

    /** `clear_session`: deletes the id when present; other sessions keep
      their histories. */
    method ClearSession(id: string)
      requires Valid()
      modifies this`sessions, this`order
      ensures Valid()
      ensures sessions == old(sessions) - {id}
      ensures order == Without(old(order), id)
      ensures id !in old(sessions) ==> sessions == old(sessions) && order == old(order)
    {
      if id in sessions {
        sessions := sessions - {id};
        WithoutDistinct(order, id);
        order := Without(order, id);
      } else {
        WithoutAbsent(order, id);
      }
    }

    /** `get_session_count`: the number of stored sessions, which is the
      number of ids `get_all_session_ids` lists. */
    method GetSessionCount() returns (n: nat)
      requires Valid()
      ensures n == |order|
    {
      n := |sessions|;
      DistinctCardinality(order);
    }

    /** `get_all_session_ids`: every stored id once, in insertion order. */
    method GetAllSessionIds() returns (ids: seq<string>)
      requires Valid()
      ensures Distinct(ids)
      ensures forall id :: id in ids <==> id in sessions
      ensures ids == order
    {
      ids := order;
    }

    /** The session branch of `chat`. */
    method ChatInSession(id: string, message: string, systemPrompt: Option<string>, outcome: ApiOutcome)
      returns (sent: seq<ChatMessage>)
      requires Valid()
      modifies this`sessions, this`order
      ensures Valid()
      ensures var e := SessionExchange(HistoryOf(old(sessions), id), maxHistory, message, systemPrompt, outcome);
        && sent == e.sent
        && sessions == old(sessions)[id := e.stored]
        && order == if id in old(sessions) then old(order) else old(order) + [id]
    {
      var history := GetSessionHistory(id);
      AddSystemPrompt(id, history, systemPrompt);
      ghost var afterPrompt := sessions;
      sent := SendAndRecord(id, message, outcome);
      StoreTwice(old(sessions), id, HistoryOf(old(sessions), id), afterPrompt[id]);
      StoreTwice(old(sessions), id, afterPrompt[id], sessions[id]);
    }

    /** The first step of the session branch of `chat`: a session whose
      history is still empty gets the system prompt, when one is given. */
    method AddSystemPrompt(id: string, history: seq<ChatMessage>, systemPrompt: Option<string>)
      requires Valid() && id in sessions && history == sessions[id]
      modifies this`sessions, this`order
      ensures Valid() && order == old(order)
      ensures sessions == old(sessions)[id :=
        if history == [] && Types.NonEmpty(systemPrompt)
        then Appended([], ChatMessage(SystemRole, systemPrompt.value), maxHistory)
        else history]
    {
      if history == [] && Types.NonEmpty(systemPrompt) {
        AddToHistory(id, SystemRole, systemPrompt.value);
      }
    }

    /** The rest of the session branch of `chat` once `id` is stored: the
      user message goes in before the call, the answer, if any, after it. */
    method SendAndRecord(id: string, message: string, outcome: ApiOutcome) returns (sent: seq<ChatMessage>)
      requires Valid() && id in sessions
      modifies this`sessions, this`order
      ensures Valid() && order == old(order)
      ensures sent == Appended(old(sessions)[id], ChatMessage(UserRole, message), maxHistory)
      ensures sessions == old(sessions)[id := if outcome.Answered?
                                             then Appended(sent, ChatMessage(AssistantRole, outcome.content), maxHistory)
                                             else sent]
    {
      AddToHistory(id, UserRole, message);
      sent := GetSessionHistory(id);
      ghost var stored := sessions;
      RecordAnswer(id, sent, outcome);
      assert stored == old(sessions)[id := sent];
      StoreTwice(old(sessions), id, sent, sessions[id]);
    }

    /** After the call: the answer, if any, is appended to the session. */
    method RecordAnswer(id: string, history: seq<ChatMessage>, outcome: ApiOutcome)
      requires Valid() && id in sessions && history == sessions[id]
      modifies this`sessions, this`order
      ensures Valid() && order == old(order)
      ensures sessions == old(sessions)[id := if outcome.Answered?
                                             then Appended(history, ChatMessage(AssistantRole, outcome.content), maxHistory)
                                             else history]
    {
      if outcome.Answered? {
        AddToHistory(id, AssistantRole, outcome.content);
      }
    }

    /** `chat`: with a truthy session id, the prompt and user message are
      added before the call and the answer after it; without one, nothing is
      stored. Returns the reply and the messages sent to the API. */
    method Chat(message: string, sessionId: Option<string>, systemPrompt: Option<string>, outcome: ApiOutcome)
      returns (response: Option<string>, sent: seq<ChatMessage>)
      requires Valid()
      modifies this`sessions, this`order
      ensures Valid()
      ensures response == Reply(outcome)
      ensures sent == MessagesSent(old(sessions), maxHistory, message, sessionId, systemPrompt)
      ensures sessions == SessionsAfterChat(old(sessions), maxHistory, message, sessionId, systemPrompt, outcome)
      ensures order == OrderAfterChat(old(order), old(sessions), sessionId)
    {
      if Types.NonEmpty(sessionId) {
        sent := ChatInSession(sessionId.value, message, systemPrompt, outcome);
      } else {
        sent := [ChatMessage(UserRole, message)];
        if Types.NonEmpty(systemPrompt) {
          sent := [ChatMessage(SystemRole, systemPrompt.value)] + sent;
        }
      }
      response := Reply(outcome);
    }

    /** `chat_async`: the synchronous `chat`. */
    method ChatAsync(message: string, sessionId: Option<string>, systemPrompt: Option<string>, outcome: ApiOutcome)
      returns (response: Option<string>, sent: seq<ChatMessage>)
      requires Valid()
      modifies this`sessions, this`order
      ensures Valid()
      ensures response == Reply(outcome)
      ensures sent == MessagesSent(old(sessions), maxHistory, message, sessionId, systemPrompt)
      ensures sessions == SessionsAfterChat(old(sessions), maxHistory, message, sessionId, systemPrompt, outcome)
      ensures order == OrderAfterChat(old(order), old(sessions), sessionId)
    {
      response, sent := Chat(message, sessionId, systemPrompt, outcome);
    }
  }
}
