/** The chat bot built on the framework: its session ids, the order in which
    it registers its handlers, and the handlers that use the session store. */
module BotMain {
  import opened Wrappers
  import opened Types
  import opened Strings
  import opened Filters
  import opened Dispatching
  import opened GigaChat

  // Session ids

  /** `str(x) if x else ""` for an optional id. */
  function IdText(id: Option<int>): (r: string)
    ensures r == "" <==> id.None? || id.value == 0
    ensures id.Some? && id.value != 0 ==> r == IntToString(id.value)
  {
    if id.Some? && id.value != 0 then IntToString(id.value) else ""
  }

  /** Chat types that get one session per user. */
  predicate GroupLike(chatType: Option<string>) {
    chatType.Some? && chatType.value in ["chat", "group", "supergroup"]
  }

  /** `_get_session_id`: `"<chat_id>:<user_id>"` in group-like chats, the
      chat id alone in any other chat. */
  function SessionId(m: Message): string {
    var chatId := IdText(MessageChatId(m));
    var userId := IdText(MessageUserId(m));
    if GroupLike(m.recipient.chatType) then chatId + ":" + userId else chatId
  }

  /** Two ids are the same session key when equal or both falsy. */
  predicate SameKey(a: Option<int>, b: Option<int>) {
    IdText(a) == IdText(b)
  }

  lemma SameKeyMeans(a: Option<int>, b: Option<int>)
    requires SameKey(a, b)
    ensures (a.None? || a.value == 0) == (b.None? || b.value == 0)
    ensures a.Some? && a.value != 0 ==> b == a
  {
    if a.Some? && a.value != 0 {
      IntToStringInjective(a.value, b.value);
    }
  }

  /** Joining with ":" is reversible when the left parts hold no ":". */
  lemma {:induction false} ColonSplit(a: string, b: string, c: string, d: string)
    requires ':' !in a && ':' !in c
    requires a + ":" + b == c + ":" + d
    ensures a == c && b == d
  {
    var s := a + ":" + b;
    assert s[|a|] == ':';
    assert (c + ":" + d)[|c|] == ':';
    assert |a| == |c|;
    assert a == s[..|a|] == c;
    assert b == s[|a| + 1..] == d;
  }

  lemma IdTextNoColon(id: Option<int>)
    ensures ':' !in IdText(id)
  {
    if id.Some? && id.value != 0 {
      IntToStringNoColon(id.value);
    }
  }

  /** In group-like chats the session id tells both the chat and the user
      apart: equal ids mean the same chat and the same user (a missing id and
      0 counting as the same). */
  lemma GroupSessionIdsSeparateUsers(m1: Message, m2: Message)
    requires GroupLike(m1.recipient.chatType) && GroupLike(m2.recipient.chatType)
    requires SessionId(m1) == SessionId(m2)
    ensures SameKey(MessageChatId(m1), MessageChatId(m2))
    ensures SameKey(MessageUserId(m1), MessageUserId(m2))
  {
    IdTextNoColon(MessageChatId(m1));
    IdTextNoColon(MessageChatId(m2));
    ColonSplit(IdText(MessageChatId(m1)), IdText(MessageUserId(m1)),
               IdText(MessageChatId(m2)), IdText(MessageUserId(m2)));
  }

  /** In other chats every message of one chat shares one session, whoever
      sends it. */
  lemma DialogSessionIsPerChat(m1: Message, m2: Message)
    requires !GroupLike(m1.recipient.chatType) && !GroupLike(m2.recipient.chatType)
    ensures SessionId(m1) == SessionId(m2) <==> SameKey(MessageChatId(m1), MessageChatId(m2))
  {
  }

  /** A group-like chat's session id never equals another chat's. */
  lemma GroupAndDialogSessionsDiffer(m1: Message, m2: Message)
    requires GroupLike(m1.recipient.chatType) && !GroupLike(m2.recipient.chatType)
    ensures SessionId(m1) != SessionId(m2)
  {
    IdTextNoColon(MessageChatId(m2));
    var s := SessionId(m1);
    assert s[|IdText(MessageChatId(m1))|] == ':';
  }

  /** A group message in chat 10 without a sender has session "10:". */
  lemma GroupWithoutSender(m: Message)
    requires m.recipient.chatId == Some(10) && m.recipient.chatType == Some("group") && m.sender.None?
    ensures SessionId(m) == "10:"
  {
    assert Digits(10) == "10" by {
      assert Digits(1) == "1";
    }
  }

  /** A message in a dialog without a chat id has the falsy session "". */
  lemma DialogWithoutChatId(m: Message)
    requires m.recipient.chatId.None? && m.recipient.chatType == Some("dialog")
    ensures SessionId(m) == ""
  {
  }

  // Handler registration

  /** The handlers `_register_handlers` appends, in order: the message
      handlers, then the button and lifecycle handlers. */
  function BotHandlers(): (hs: seq<Handler>)
    ensures |hs| == 9
  {
    MessageHandlers() + EventHandlers()
  }

  /** The three command handlers and the catch-all text handler. */
  function MessageHandlers(): seq<Handler> {
    [ MessageHandler([], Many(["start", "help"]), Absent, "command_start"),
      MessageHandler([], One("clear"), Absent, "command_clear"),
      MessageHandler([], One("info"), Absent, "command_info"),
      MessageHandler([TextFilter(Absent, None)], Absent, Absent, "handle_text_message") ]
  }

  /** The button handler and one handler per lifecycle kind. */
  function EventHandlers(): seq<Handler> {
    [ CallbackQueryHandler([], Absent, "handle_callback"),
      UpdateHandler([BotStarted], "bot_started"),
      UpdateHandler([BotStopped], "bot_stopped"),
      UpdateHandler([BotAdded], "bot_added_to_chat"),
      UpdateHandler([BotRemoved], "bot_removed_from_chat") ]
  }

  const StartHookName: CallbackName := "on_startup"
  const ShutdownHookName: CallbackName := "on_shutdown"
  const MessageKinds: seq<UpdateKind> := [MessageCreated, MessageEdited]

  /** The registered handlers with their filters normalised: three command
      handlers, the catch-all text handler, the button handler, and one
      filterless handler per lifecycle kind. */
  predicate BotShape(hs: seq<Handler>) {
    && |hs| == 9
    && hs[0] == Handler("command_start", [Command(["/start", "/help"])], MessageKinds)
    && hs[1] == Handler("command_clear", [Command(["/clear"])], MessageKinds)
    && hs[2] == Handler("command_info", [Command(["/info"])], MessageKinds)
    && hs[3] == Handler("handle_text_message", [Text([], None)], MessageKinds)
    && hs[4] == Handler("handle_callback", [], [MessageCallback])
    && hs[5] == Handler("bot_started", [], [BotStarted])
    && hs[6] == Handler("bot_stopped", [], [BotStopped])
    && hs[7] == Handler("bot_added_to_chat", [], [BotAdded])
    && hs[8] == Handler("bot_removed_from_chat", [], [BotRemoved])
  }

  /** The registration builds exactly that list. */
  lemma BotHandlersShape()
    ensures BotShape(BotHandlers())
  {
    CommandSlashOptional("clear");
    CommandSlashOptional("info");
    assert "/" + "clear" == "/clear";
    assert "/" + "info" == "/info";
    var r := NormalizeCommands(["start", "help"]);
    assert r[0] == NormalizeCommand("start") == "/" + "start" == "/start";
    assert r[1] == NormalizeCommand("help") == "/" + "help" == "/help";
    assert r == ["/start", "/help"];
  }

  /** The command word of a message update, if any. */
  function CommandWord(u: Update): Option<string> {
    if MessageTextOf(u).Some? then CommandOf(MessageTextOf(u).value) else None
  }

  /** A handler with one filter that accepts the update's kind matches when
      its filter holds. */
  lemma OneFilter(h: Handler, u: Update)
    requires |h.filters| == 1 && u.kind in h.updateTypes
    ensures Matches(h, u) <==> Eval(h.filters[0], u)
  {
  }

  /** Which of the bot's handlers a created or edited message matches. */
  lemma MessageMatches(hs: seq<Handler>, u: Update)
    requires BotShape(hs)
    requires u.kind == MessageCreated || u.kind == MessageEdited
    ensures
      && (Matches(hs[0], u) <==> CommandWord(u) == Some("/start") || CommandWord(u) == Some("/help"))
      && (Matches(hs[1], u) <==> CommandWord(u) == Some("/clear"))
      && (Matches(hs[2], u) <==> CommandWord(u) == Some("/info"))
      && (Matches(hs[3], u) <==> MessageTextOf(u).Some?)
      && forall k | 4 <= k < 9 :: !Matches(hs[k], u)
  {
    assert u.kind in MessageKinds;
    OneFilter(hs[0], u);
    OneFilter(hs[1], u);
    OneFilter(hs[2], u);
    OneFilter(hs[3], u);
    forall k | 4 <= k < 9 ensures !Matches(hs[k], u) {
      assert u.kind !in hs[k].updateTypes;
    }
  }

  /** The bot's command words differ pairwise (at their second character). */
  lemma CommandWordsDiffer(w: string)
    ensures w == "/info" ==> w != "/start" && w != "/help" && w != "/clear"
    ensures w == "/clear" ==> w != "/start" && w != "/help"
  {
    if w == "/info" {
      assert w[1] == 'i' && "/start"[1] == 's' && "/help"[1] == 'h' && "/clear"[1] == 'c';
    }
    if w == "/clear" {
      assert w[1] == 'c' && "/start"[1] == 's' && "/help"[1] == 'h';
    }
  }

  /** "/clear" matches `command_clear` and the catch-all text handler, and
      no other handler. */
  lemma ClearMatches(hs: seq<Handler>, u: Update)
    requires BotShape(hs)
    requires u.kind == MessageCreated || u.kind == MessageEdited
    requires CommandWord(u) == Some("/clear")
    ensures Matches(hs[1], u) && Matches(hs[3], u)
    ensures forall j | 0 <= j < |hs| && j != 1 && j != 3 :: !Matches(hs[j], u)
  {
    CommandWordsDiffer(CommandWord(u).value);
    MessageMatches(hs, u);
  }

  /** "/clear" reaches `command_clear`, registered before the catch-all text
      handler, and not the LLM; only if it raises does the text handler run
      too. */
  lemma ClearReachesCommandClear(hs: seq<Handler>, u: Update, raises: set<nat>)
    requires BotShape(hs)
    requires u.kind == MessageCreated || u.kind == MessageEdited
    requires CommandWord(u) == Some("/clear")
    ensures 1 !in raises ==> Dispatched(hs, u, raises, 0) == [1]
    ensures 1 in raises ==> Dispatched(hs, u, raises, 0) == [1, 3]
  {
    ClearMatches(hs, u);
    if 1 !in raises {
      FirstMatchWins(hs, u, raises, 1);
    } else {
      RaisingThenNextMatch(hs, u, raises, 1, 3);
    }
  }

  /** "/start" and "/help" reach `command_start`. */
  lemma StartReachesCommandStart(hs: seq<Handler>, u: Update, raises: set<nat>)
    requires BotShape(hs)
    requires u.kind == MessageCreated || u.kind == MessageEdited
    requires CommandWord(u) == Some("/start") || CommandWord(u) == Some("/help")
    requires 0 !in raises
    ensures Dispatched(hs, u, raises, 0) == [0]
  {
    MessageMatches(hs, u);
    FirstMatchWins(hs, u, raises, 0);
  }

  /** "/info" reaches `command_info`. */
  lemma InfoReachesCommandInfo(hs: seq<Handler>, u: Update, raises: set<nat>)
    requires BotShape(hs)
    requires u.kind == MessageCreated || u.kind == MessageEdited
    requires CommandWord(u) == Some("/info")
    requires 2 !in raises
    ensures Dispatched(hs, u, raises, 0) == [2]
  {
    CommandWordsDiffer(CommandWord(u).value);
    MessageMatches(hs, u);
    assert !Matches(hs[0], u) && !Matches(hs[1], u);
    forall j | 0 <= j < 2 ensures !Matches(hs[j], u) {
      assert j == 0 || j == 1;
    }
    FirstMatchWins(hs, u, raises, 2);
  }

  /** Any other non-empty text, an unknown command included, reaches the LLM
      handler; a message without text reaches no handler. */
  lemma OtherTextReachesLlm(hs: seq<Handler>, u: Update, raises: set<nat>)
    requires BotShape(hs)
    requires u.kind == MessageCreated || u.kind == MessageEdited
    requires CommandWord(u) !in {Some("/start"), Some("/help"), Some("/clear"), Some("/info")}
    ensures MessageTextOf(u).Some? && 3 !in raises ==> Dispatched(hs, u, raises, 0) == [3]
    ensures MessageTextOf(u).None? ==> Dispatched(hs, u, raises, 0) == []
  {
    MessageMatches(hs, u);
    if MessageTextOf(u).Some? && 3 !in raises {
      FirstMatchWins(hs, u, raises, 3);
    }
    if MessageTextOf(u).None? {
      NoMatchNoCallback(hs, u, raises);
    }
  }

  /** A button press reaches `handle_callback` and each lifecycle kind its own
      handler, whatever the update holds. */
  lemma KindHandlers(hs: seq<Handler>, u: Update, raises: set<nat>)
    requires BotShape(hs)
    ensures u.kind == MessageCallback && 4 !in raises ==> Dispatched(hs, u, raises, 0) == [4]
    ensures u.kind == BotStarted && 5 !in raises ==> Dispatched(hs, u, raises, 0) == [5]
    ensures u.kind == BotStopped && 6 !in raises ==> Dispatched(hs, u, raises, 0) == [6]
    ensures u.kind == BotAdded && 7 !in raises ==> Dispatched(hs, u, raises, 0) == [7]
    ensures u.kind == BotRemoved && 8 !in raises ==> Dispatched(hs, u, raises, 0) == [8]
  {
    var k: nat := match u.kind
      case MessageCallback => 4
      case BotStarted => 5
      case BotStopped => 6
      case BotAdded => 7
      case BotRemoved => 8
      case _ => 9;
    if k < 9 && k !in raises {
      forall j | 0 <= j < k ensures !Matches(hs[j], u) {
        assert u.kind !in hs[j].updateTypes;
      }
      assert u.kind in hs[k].updateTypes;
      FirstMatchWins(hs, u, raises, k);
    }
  }

  /** Updates of any other kind, such as a removed message, run no handler. */
  lemma UnhandledKinds(hs: seq<Handler>, u: Update, raises: set<nat>)
    requires BotShape(hs)
    requires u.kind !in {MessageCreated, MessageEdited, MessageCallback, BotStarted, BotStopped, BotAdded, BotRemoved}
    ensures Dispatched(hs, u, raises, 0) == []
  {
    forall j | 0 <= j < 9 ensures !Matches(hs[j], u) {
      assert u.kind !in hs[j].updateTypes;
    }
    NoMatchNoCallback(hs, u, raises);
  }

  // The bot

  const MaxHistory: int := 10
  const SystemPrompt: string := "Ты — дружелюбный ассистент в Max Messenger.\nОтвечай кратко и по делу. Будь вежливым и помогай пользователям."
  const ClearedReply: string := "✅ История диалога очищена!"
  const ErrorReply: string := "😔 Извините, произошла ошибка при обработке вашего запроса."

  /** What `command_info` reports. */
  datatype SessionInfo = SessionInfo(sessionId: string, historyLength: nat, sessionCount: nat)

  class MaxBotWithGigaChat {
    const dp: Dispatcher
    const llm: GigaChatClient

    constructor ()
      ensures fresh(dp) && fresh(llm) && dp != llm as object
      ensures dp.handlers == BotHandlers()
      ensures dp.startupHandler == Some(StartHookName) && dp.shutdownHandler == Some(ShutdownHookName)
      ensures dp.bot == None && dp.marker == None && !dp.running
      ensures llm.maxHistory == MaxHistory && llm.sessions == map[] && llm.order == [] && llm.Valid()
    {
      dp := new Dispatcher();
      llm := new GigaChatClient(MaxHistory);
      new;
      RegisterHandlers();
    }

    /** `_register_handlers`: the two hooks, then the nine handlers in order. */
    method RegisterHandlers()
      modifies dp
      ensures dp.handlers == old(dp.handlers) + BotHandlers()
      ensures dp.startupHandler == Some(StartHookName) && dp.shutdownHandler == Some(ShutdownHookName)
      ensures dp.bot == old(dp.bot) && dp.marker == old(dp.marker) && dp.running == old(dp.running)
    {
      ghost var start := dp.handlers;
      dp.OnStartup(StartHookName);
      dp.OnShutdown(ShutdownHookName);
      RegisterMessageHandlers();
      RegisterEventHandlers();
      assert dp.handlers == start + MessageHandlers() + EventHandlers();
    }

    method RegisterMessageHandlers()
      modifies dp`handlers
      ensures dp.handlers == old(dp.handlers) + MessageHandlers()
    {
      dp.OnMessage([], Many(["start", "help"]), Absent, "command_start");
      dp.OnMessage([], One("clear"), Absent, "command_clear");
      dp.OnMessage([], One("info"), Absent, "command_info");
      dp.OnMessage([TextFilter(Absent, None)], Absent, Absent, "handle_text_message");
    }

    method RegisterEventHandlers()
      modifies dp`handlers
      ensures dp.handlers == old(dp.handlers) + EventHandlers()
    {
      dp.OnCallbackQuery([], Absent, "handle_callback");
      dp.OnUpdate([BotStarted], "bot_started");
      dp.OnUpdate([BotStopped], "bot_stopped");
      dp.OnUpdate([BotAdded], "bot_added_to_chat");
      dp.OnUpdate([BotRemoved], "bot_removed_from_chat");
    }

    /** `command_clear`: a message with a sender clears its session; the reply
      text is returned. */
    method CommandClear(m: Message) returns (reply: Option<string>)
      requires llm.Valid()
      modifies llm
      ensures llm.Valid()
      ensures m.sender.None? ==> reply == None && llm.sessions == old(llm.sessions) && llm.order == old(llm.order)
      ensures m.sender.Some? ==>
        && reply == Some(ClearedReply)
        && llm.sessions == old(llm.sessions) - {SessionId(m)}
        && llm.order == Without(old(llm.order), SessionId(m))
    {
      if m.sender.None? {
        return None;
      }
      llm.ClearSession(SessionId(m));
      reply := Some(ClearedReply);
    }

    /** `command_info`: looks the session up, which creates it when new, and
      reports its length and the number of sessions. */
    method CommandInfo(m: Message) returns (info: Option<SessionInfo>)
      requires llm.Valid()
      modifies llm
      ensures llm.Valid()
      ensures m.sender.None? ==> info == None && llm.sessions == old(llm.sessions) && llm.order == old(llm.order)
      ensures m.sender.Some? ==>
        var id := SessionId(m);
        && llm.sessions == old(llm.sessions)[id := HistoryOf(old(llm.sessions), id)]
        && llm.order == (if id in old(llm.sessions) then old(llm.order) else old(llm.order) + [id])
        && info == Some(SessionInfo(id, |HistoryOf(old(llm.sessions), id)|, |llm.order|))
    {
      if m.sender.None? {
        return None;
      }
      var id := SessionId(m);
      var history := llm.GetSessionHistory(id);
      var count := llm.GetSessionCount();
      info := Some(SessionInfo(id, |history|, count));
    }

    /** `handle_text_message`: a message with a sender and a text is sent to
      the LLM under its session with the bot's system prompt; the reply is
      the answer, or an apology when there is none. */
    method HandleTextMessage(m: Message, outcome: ApiOutcome) returns (reply: Option<string>)
      requires llm.Valid()
      modifies llm
      ensures llm.Valid()
      ensures m.sender.None? || !NonEmpty(MessageText(m)) ==>
        reply == None && llm.sessions == old(llm.sessions) && llm.order == old(llm.order)
      ensures m.sender.Some? && NonEmpty(MessageText(m)) ==>
        && llm.sessions == SessionsAfterChat(old(llm.sessions), llm.maxHistory, MessageText(m).value,
                                             Some(SessionId(m)), Some(SystemPrompt), outcome)
        && llm.order == OrderAfterChat(old(llm.order), old(llm.sessions), Some(SessionId(m)))
        && reply == Some(if NonEmpty(Reply(outcome)) then outcome.content else ErrorReply)
    {
      if m.sender.None? {
        return None;
      }
      var userText := if MessageText(m).Some? then MessageText(m).value else "";
      if userText == "" {
        return None;
      }
      var sessionId := SessionId(m);
      var response, _ := llm.ChatAsync(userText, Some(sessionId), Some(SystemPrompt), outcome);
      if NonEmpty(response) {
        reply := response;
      } else {
        reply := Some(ErrorReply);
      }
    }
  }

  /** A dialog without a chat id has the falsy session id "", so the LLM
      handler keeps no history for it. */
  lemma DialogWithoutChatIdKeepsNoHistory(m: Message, sessions: map<string, seq<ChatMessage>>, outcome: ApiOutcome)
    requires m.recipient.chatId.None? && !GroupLike(m.recipient.chatType)
    requires NonEmpty(MessageText(m))
    ensures SessionsAfterChat(sessions, MaxHistory, MessageText(m).value, Some(SessionId(m)), Some(SystemPrompt), outcome) == sessions
  {
  }
}
