/** The filter algebra: boolean predicates over an update, with the leaf
    filters of the framework and the n-ary And/Or and Not combinators. */
module Filters {
  import opened Wrappers
  import opened Types
  import opened Strings

  /** The argument shapes `Optional[Union[str, List[str]]]` of the filter
      constructors. */
  datatype StrOrList = Absent | One(s: string) | Many(items: seq<string>)

  /** Python truthiness of such an argument. */
  predicate ArgTruthy(a: StrOrList) {
    match a
    case Absent => false
    case One(s) => s != ""
    case Many(items) => items != []
  }

  /** `[x] if isinstance(x, str) else x`, with None read as the empty list
      (the filters treat both as "not given"). */
  function AsList(a: StrOrList): seq<string> {
    match a
    case Absent => []
    case One(s) => [s]
    case Many(items) => items
  }

  /** A filter as constructed; the leaf cases hold their constructor's
      normalised arguments. */
  datatype Filter =
    | And(filters: seq<Filter>)
    | Or(filters: seq<Filter>)
    | Not(inner: Filter)
    | Text(texts: seq<string>, contains: Option<string>)
    | Command(commands: seq<string>)
    | ChatType(chatTypes: seq<string>)
    | UserIds(userIds: seq<int>)
    | CallbackData(data: seq<string>, startsWith: Option<string>)
    | State(state: string)

  // Leaf checks

  /** `update.message.text` when the message exists and the text is truthy. */
  function MessageTextOf(u: Update): Option<string> {
    if u.message.Some? && NonEmpty(MessageText(u.message.value)) then MessageText(u.message.value) else None
  }

  /** `TextFilter.check`. */
  predicate TextCheck(texts: seq<string>, contains: Option<string>, u: Update) {
    var t := MessageTextOf(u);
    if t.None? then false
    else if texts != [] then t.value in texts
    else if NonEmpty(contains) then IsSubstring(contains.value, t.value)
    else true
  }

  /** The command word of a message text: after `strip()` it must start with
      "/", and it is the first whitespace-separated word cut at the first "@". */
  function CommandOf(text: string): (r: Option<string>)
    ensures r.Some? ==> |r.value| > 0 && r.value[0] == '/'
  {
    var t := Strip(text);
    if |t| > 0 && t[0] == '/' then
      var word := TakeUntil(t, Whitespace);
      assert word[0] == '/';
      Some(TakeUntil(word, {'@'}))
    else None
  }

  /** `CommandFilter.check`: no commands means any command. */
  predicate CommandCheck(commands: seq<string>, u: Update) {
    var t := MessageTextOf(u);
    t.Some? && CommandOf(t.value).Some? && (commands == [] || CommandOf(t.value).value in commands)
  }

  /** `ChatTypeFilter.check`. */
  predicate ChatTypeCheck(chatTypes: seq<string>, u: Update) {
    u.message.Some? && NonEmpty(u.message.value.recipient.chatType)
    && u.message.value.recipient.chatType.value in chatTypes
  }

  /** The user id `UserFilter` looks at: the message sender's, else the
      callback user's, else the update user's. */
  function UserIdOf(u: Update): (r: Option<int>)
    ensures u.message.Some? && u.message.value.sender.Some? ==> r == Some(u.message.value.sender.value.userId)
    ensures !(u.message.Some? && u.message.value.sender.Some?) && u.callback.Some? ==>
      r == Some(u.callback.value.user.userId)
    ensures !(u.message.Some? && u.message.value.sender.Some?) && u.callback.None? ==>
      r == (if u.user.Some? then Some(u.user.value.userId) else None)
  {
    if u.message.Some? && u.message.value.sender.Some? then Some(u.message.value.sender.value.userId)
    else if u.callback.Some? then Some(u.callback.value.user.userId)
    else if u.user.Some? then Some(u.user.value.userId)
    else None
  }

  /** `UserFilter.check`: a missing or zero id never matches. */
  predicate UserCheck(userIds: seq<int>, u: Update) {
    var id := UserIdOf(u);
    id.Some? && id.value != 0 && id.value in userIds
  }

  /** `CallbackDataFilter.check`. */
  predicate CallbackCheck(data: seq<string>, startsWith: Option<string>, u: Update) {
    if u.callback.None? || !NonEmpty(u.callback.value.payload) then false
    else
      var p := u.callback.value.payload.value;
      if data != [] then p in data
      else if NonEmpty(startsWith) then startsWith.value <= p
      else true
  }

  /** `Filter.check`. */
  predicate Eval(f: Filter, u: Update) {
    match f
    case And(fs) => forall i | 0 <= i < |fs| :: Eval(fs[i], u)
    case Or(fs) => exists i | 0 <= i < |fs| :: Eval(fs[i], u)
    case Not(g) => !Eval(g, u)
    case Text(texts, contains) => TextCheck(texts, contains, u)
    case Command(commands) => CommandCheck(commands, u)
    case ChatType(chatTypes) => ChatTypeCheck(chatTypes, u)
    case UserIds(userIds) => UserCheck(userIds, u)
    case CallbackData(data, startsWith) => CallbackCheck(data, startsWith, u)
    case State(_) => true
  }

  // Operators and the `F` factory

  /** `f & g`. */
  function Conj(f: Filter, g: Filter): (r: Filter)
    ensures forall u :: Eval(r, u) == (Eval(f, u) && Eval(g, u))
  {
    var r := And([f, g]);
    assert forall u :: Eval(r, u) ==> Eval(f, u) && Eval(g, u) by {
      forall u | Eval(r, u) ensures Eval(f, u) && Eval(g, u) {
        assert r.filters[0] == f && r.filters[1] == g;
      }
    }
    r
  }

  /** `f | g`. */
  function Disj(f: Filter, g: Filter): (r: Filter)
    ensures forall u :: Eval(r, u) == (Eval(f, u) || Eval(g, u))
  {
    var r := Or([f, g]);
    assert forall u :: Eval(f, u) ==> Eval(r, u) by {
      forall u | Eval(f, u) ensures Eval(r, u) { assert r.filters[0] == f; }
    }
    assert forall u :: Eval(g, u) ==> Eval(r, u) by {
      forall u | Eval(g, u) ensures Eval(r, u) { assert r.filters[1] == g; }
    }
    r
  }

  /** `~f`. */
  function Neg(f: Filter): (r: Filter)
    ensures forall u :: Eval(r, u) == !Eval(f, u)
  {
    Not(f)
  }

  /** `TextFilter(text, contains)`, also `F.text`. */
  function TextFilter(text: StrOrList, contains: Option<string>): Filter {
    Text(AsList(text), contains)
  }

  /** Prefixes "/" to a command that lacks it. */
  function NormalizeCommand(c: string): (r: string)
    ensures |r| > 0 && r[0] == '/'
    ensures |c| > 0 && c[0] == '/' ==> r == c
  {
    if |c| > 0 && c[0] == '/' then c else "/" + c
  }

  function NormalizeCommands(cs: seq<string>): (r: seq<string>)
    ensures |r| == |cs|
    ensures forall i | 0 <= i < |cs| :: r[i] == NormalizeCommand(cs[i])
  {
    if cs == [] then [] else [NormalizeCommand(cs[0])] + NormalizeCommands(cs[1..])
  }

  /** `CommandFilter(commands)`, also `F.command`: a falsy argument means any
      command; otherwise every entry is made to start with "/". */
  function CommandFilter(commands: StrOrList): (f: Filter)
    ensures f.Command?
    ensures f.commands == [] <==> !ArgTruthy(commands)
    ensures ArgTruthy(commands) ==> f.commands == NormalizeCommands(AsList(commands))
  {
    if ArgTruthy(commands) then Command(NormalizeCommands(AsList(commands))) else Command([])
  }

  /** `ChatTypeFilter(chat_type)`, also `F.chat_type`. */
  function ChatTypeFilter(chatType: StrOrList): Filter {
    ChatType(AsList(chatType))
  }

  /** `UserFilter(user_ids)`, also `F.user`. */
  function UserFilter(userIds: seq<int>): Filter {
    UserIds(userIds)
  }

  /** `CallbackDataFilter(data, startswith)`, also `F.callback_data`. */
  function CallbackDataFilter(data: StrOrList, startsWith: Option<string>): Filter {
    CallbackData(AsList(data), startsWith)
  }

  // Laws

  /** A text filter is false without a message text; with texts given it is
      membership, otherwise a substring test when `contains` is given, and
      otherwise any text passes. */
  lemma TextFilterCases(text: StrOrList, contains: Option<string>, u: Update)
    ensures MessageTextOf(u).None? ==> !Eval(TextFilter(text, contains), u)
    ensures MessageTextOf(u).Some? && ArgTruthy(text) ==>
      (Eval(TextFilter(text, contains), u) <==> MessageTextOf(u).value in AsList(text))
    ensures MessageTextOf(u).Some? && !ArgTruthy(text) && text != One("") && NonEmpty(contains) ==>
      (Eval(TextFilter(text, contains), u) <==> IsSubstring(contains.value, MessageTextOf(u).value))
    ensures !ArgTruthy(text) && text != One("") && !NonEmpty(contains) ==>
      (Eval(TextFilter(text, contains), u) <==> MessageTextOf(u).Some?)
  {
  }

  /** `TextFilter("")` keeps the list `[""]`, which no truthy text is in, so
      it accepts nothing. */
  lemma EmptyTextFilterRejects(contains: Option<string>, u: Update)
    ensures !Eval(TextFilter(One(""), contains), u)
  {
  }

  /** A command filter accepts exactly the texts whose command word is one of
      its normalised commands, or any command word when none is given. */
  lemma CommandFilterCases(commands: StrOrList, u: Update)
    ensures var w := if MessageTextOf(u).Some? then CommandOf(MessageTextOf(u).value) else None;
      && (w.None? ==> !Eval(CommandFilter(commands), u))
      && (w.Some? && !ArgTruthy(commands) ==> Eval(CommandFilter(commands), u))
      && (w.Some? && ArgTruthy(commands) ==>
           (Eval(CommandFilter(commands), u) <==> w.value in NormalizeCommands(AsList(commands))))
  {
  }

  /** A chat-type filter is false without a message or a chat type, and
      otherwise is membership. */
  lemma ChatTypeFilterCases(chatType: StrOrList, u: Update)
    ensures u.message.None? || !NonEmpty(u.message.value.recipient.chatType) ==> !Eval(ChatTypeFilter(chatType), u)
    ensures u.message.Some? && NonEmpty(u.message.value.recipient.chatType) ==>
      (Eval(ChatTypeFilter(chatType), u) <==> u.message.value.recipient.chatType.value in AsList(chatType))
  {
  }

  /** A user filter never accepts a missing or zero id, and otherwise is
      membership of the id it looks at. */
  lemma UserFilterCases(userIds: seq<int>, u: Update)
    ensures UserIdOf(u).None? || UserIdOf(u).value == 0 ==> !Eval(UserFilter(userIds), u)
    ensures UserIdOf(u).Some? && UserIdOf(u).value != 0 ==>
      (Eval(UserFilter(userIds), u) <==> UserIdOf(u).value in userIds)
  {
  }

  /** A callback-data filter is false without a callback payload; with data
      given it is membership, otherwise a prefix test when `startswith` is
      given, and otherwise any payload passes. The data "" is kept as the
      list [""], which no truthy payload is in, so it accepts nothing. */
  lemma CallbackDataFilterCases(data: StrOrList, startsWith: Option<string>, u: Update)
    ensures u.callback.None? || !NonEmpty(u.callback.value.payload) ==> !Eval(CallbackDataFilter(data, startsWith), u)
    ensures u.callback.Some? && NonEmpty(u.callback.value.payload) && ArgTruthy(data) ==>
      (Eval(CallbackDataFilter(data, startsWith), u) <==> u.callback.value.payload.value in AsList(data))
    ensures u.callback.Some? && NonEmpty(u.callback.value.payload) && !ArgTruthy(data) && data != One("") && NonEmpty(startsWith) ==>
      (Eval(CallbackDataFilter(data, startsWith), u) <==> startsWith.value <= u.callback.value.payload.value)
    ensures u.callback.Some? && NonEmpty(u.callback.value.payload) && !ArgTruthy(data) && data != One("") && !NonEmpty(startsWith) ==>
      Eval(CallbackDataFilter(data, startsWith), u)
    ensures data == One("") ==> !Eval(CallbackDataFilter(data, startsWith), u)
  {
  }

  /** An empty And holds of every update and an empty Or of none. */
  lemma EmptyCombinators(u: Update)
    ensures Eval(And([]), u)
    ensures !Eval(Or([]), u)
  {
  }

  /** Combinators nest: `(a | b) & ~c` holds exactly when (a or b) and not c. */
  lemma NestedCombinators(a: Filter, b: Filter, c: Filter, u: Update)
    ensures Eval(Conj(Disj(a, b), Neg(c)), u) == ((Eval(a, u) || Eval(b, u)) && !Eval(c, u))
  {
  }

  /** De Morgan: the negation of an And is the Or of the negations. */
  lemma NotAndIsOrNot(fs: seq<Filter>, u: Update)
    ensures Eval(Not(And(fs)), u) == Eval(Or(Negations(fs)), u)
  {
    var ns := Negations(fs);
    if !Eval(And(fs), u) {
      var i :| 0 <= i < |fs| && !Eval(fs[i], u);
      assert Eval(ns[i], u);
    }
  }

  function Negations(fs: seq<Filter>): (r: seq<Filter>)
    ensures |r| == |fs|
    ensures forall i | 0 <= i < |fs| :: r[i] == Not(fs[i])
  {
    if fs == [] then [] else [Not(fs[0])] + Negations(fs[1..])
  }

  /** `CommandFilter("start")` and `CommandFilter("/start")` are the same filter. */
  lemma CommandSlashOptional(name: string)
    requires name != [] && name[0] != '/'
    ensures CommandFilter(One(name)) == CommandFilter(One("/" + name))
    ensures CommandFilter(One(name)) == Command(["/" + name])
  {
    assert NormalizeCommands([name]) == [NormalizeCommand(name)] == ["/" + name];
    assert NormalizeCommands(["/" + name]) == [NormalizeCommand("/" + name)] == ["/" + name];
  }

  lemma SlashKeepsNoneIn(name: string, stop: set<char>)
    requires '/' !in stop && NoneIn(name, stop)
    ensures NoneIn("/" + name, stop)
  {
    forall i | 0 <= i < |"/" + name| ensures ("/" + name)[i] !in stop {
      if i > 0 { assert ("/" + name)[i] == name[i - 1]; }
    }
  }

  /** Stripping the trailing whitespace does not change the command word:
      it is read off the text with only its leading whitespace removed. */
  lemma CommandOfLeftStripped(text: string)
    ensures var l := LStrip(text);
            CommandOf(text) == if |l| > 0 && l[0] == '/' then Some(TakeUntil(TakeUntil(l, Whitespace), {'@'})) else None
  {
    StripFirstWord(text);
  }

  /** The first word of "/" + name + rest, cut at "@", is "/" + name when the
      name holds neither whitespace nor "@" and the rest starts with either. */
  lemma CommandWordOfName(name: string, rest: string)
    requires NoneIn(name, Whitespace) && NoneIn(name, {'@'})
    requires rest == [] || rest[0] == '@' || IsSpace(rest[0])
    ensures TakeUntil(TakeUntil("/" + name + rest, Whitespace), {'@'}) == "/" + name
  {
    assert "/" + name + rest == ("/" + name) + rest;
    SlashKeepsNoneIn(name, Whitespace);
    SlashKeepsNoneIn(name, {'@'});
    TakeUntilAppend("/" + name, rest, Whitespace);
    var tail := TakeUntil(rest, Whitespace);
    assert tail == [] || tail[0] == '@';
    TakeUntilAppend("/" + name, tail, {'@'});
    assert TakeUntil(tail, {'@'}) == [];
    assert ("/" + name) + [] == "/" + name;
  }

  /** The command word of a text that is, after leading whitespace, "/" and a
      name, optionally followed by "@bot" and/or arguments, is "/" + name. */
  lemma CommandOfCommandLine(lead: string, name: string, rest: string)
    requires AllSpace(lead)
    requires NoneIn(name, Whitespace) && NoneIn(name, {'@'})
    requires rest == [] || rest[0] == '@' || IsSpace(rest[0])
    ensures CommandOf(lead + "/" + name + rest) == Some("/" + name)
  {
    var body := "/" + name + rest;
    assert lead + "/" + name + rest == lead + body;
    LStripSpaces(lead, body);
    CommandOfLeftStripped(lead + body);
    CommandWordOfName(name, rest);
  }

  /** A command with a bot suffix and an argument: "/start@bot arg" is the
      "start" command. */
  lemma CommandWithBotSuffix(text: string)
    requires text == "/start@bot arg"
    ensures CommandOf(text) == Some("/start")
  {
    var name, rest := "start", "@bot arg";
    assert text == "" + "/" + name + rest;
    CommandOfCommandLine("", name, rest);
    assert "/" + name == "/start";
  }

  /** A text that does not start with "/" after stripping is no command, so
      no command filter accepts it. */
  lemma NonCommandTextRejected(commands: seq<string>, u: Update)
    requires MessageTextOf(u).Some?
    requires var t := Strip(MessageTextOf(u).value); t == [] || t[0] != '/'
    ensures !Eval(Command(commands), u)
  {
  }

  /** Leaf filters on the message are false when there is no message. */
  lemma NoMessageLeavesFalse(u: Update, texts: seq<string>, contains: Option<string>,
                             commands: seq<string>, chatTypes: seq<string>)
    requires u.message.None?
    ensures !Eval(Text(texts, contains), u)
    ensures !Eval(Command(commands), u)
    ensures !Eval(ChatType(chatTypes), u)
  {
  }

  /** With an exact-text list the `contains` argument is ignored. */
  lemma TextListOverridesContains(texts: seq<string>, c1: Option<string>, c2: Option<string>, u: Update)
    requires texts != []
    ensures Eval(Text(texts, c1), u) == Eval(Text(texts, c2), u)
    ensures Eval(Text(texts, c1), u) <==> MessageTextOf(u).Some? && MessageTextOf(u).value in texts
  {
  }

  /** With an exact-data list the `startswith` argument is ignored. */
  lemma CallbackListOverridesPrefix(data: seq<string>, p1: Option<string>, p2: Option<string>, u: Update)
    requires data != []
    ensures Eval(CallbackData(data, p1), u) == Eval(CallbackData(data, p2), u)
  {
  }

  /** The user filter uses the message sender when there is one, whatever the
      callback and update users are. */
  lemma SenderTakesPrecedence(ids: seq<int>, u: Update, v: Update)
    requires u.message.Some? && u.message.value.sender.Some?
    requires v.message.Some? && v.message.value.sender == u.message.value.sender
    ensures Eval(UserIds(ids), u) == Eval(UserIds(ids), v)
  {
  }

  /** The state filter is a placeholder that accepts everything. */
  lemma StateAlwaysTrue(s: string, u: Update)
    ensures Eval(State(s), u)
  {
  }
}
