/** The typed update records of the Max Bot API and their parsers
    (`from_dict`), which turn one raw update into an `Update`. */
module Types {
  import opened Wrappers
  import opened Json

  /** `UpdateType`: the twelve kinds the platform documents, and `Other` for
      a kind string outside the enumeration, which is kept verbatim. */
  datatype UpdateKind =
    | MessageCreated
    | MessageEdited
    | MessageRemoved
    | MessageCallback
    | BotStarted
    | BotStopped
    | BotAdded
    | BotRemoved
    | UserAdded
    | UserRemoved
    | ChatTitleChanged
    | MessageChatCreated
    | Other(name: string)

  /** The string value of a kind. */
  function KindName(k: UpdateKind): string {
    match k
    case MessageCreated => "message_created"
    case MessageEdited => "message_edited"
    case MessageRemoved => "message_removed"
    case MessageCallback => "message_callback"
    case BotStarted => "bot_started"
    case BotStopped => "bot_stopped"
    case BotAdded => "bot_added"
    case BotRemoved => "bot_removed"
    case UserAdded => "user_added"
    case UserRemoved => "user_removed"
    case ChatTitleChanged => "chat_title_changed"
    case MessageChatCreated => "message_chat_created"
    case Other(name) => name
  }

  const KnownKindNames: set<string> := {
    "message_created", "message_edited", "message_removed", "message_callback",
    "bot_started", "bot_stopped", "bot_added", "bot_removed",
    "user_added", "user_removed", "chat_title_changed", "message_chat_created"
  }

  /** A kind as `from_dict` produces it: an `Other` never spells a known kind. */
  predicate CanonicalKind(k: UpdateKind) {
    k.Other? ==> k.name !in KnownKindNames
  }

  /** `UpdateType(s)`, falling back to `s` itself on `ValueError`. */
  function Classify(s: string): (k: UpdateKind)
    ensures KindName(k) == s
    ensures CanonicalKind(k)
    ensures k.Other? <==> s !in KnownKindNames
  {
    if s == "message_created" then MessageCreated
    else if s == "message_edited" then MessageEdited
    else if s == "message_removed" then MessageRemoved
    else if s == "message_callback" then MessageCallback
    else if s == "bot_started" then BotStarted
    else if s == "bot_stopped" then BotStopped
    else if s == "bot_added" then BotAdded
    else if s == "bot_removed" then BotRemoved
    else if s == "user_added" then UserAdded
    else if s == "user_removed" then UserRemoved
    else if s == "chat_title_changed" then ChatTitleChanged
    else if s == "message_chat_created" then MessageChatCreated
    else Other(s)
  }

  /** Classifying the name of a canonical kind gives the kind back. */
  lemma ClassifyKindName(k: UpdateKind)
    requires CanonicalKind(k)
    ensures Classify(KindName(k)) == k
  {
  }

  datatype User = User(
    userId: int,
    firstName: string,
    lastName: Option<string>,
    username: Option<string>,
    isBot: bool,
    lastActivityTime: Option<int>,
    description: Option<string>,
    avatarUrl: Option<string>,
    fullAvatarUrl: Option<string>)

  datatype Recipient = Recipient(chatId: Option<int>, chatType: Option<string>, userId: Option<int>)

  /** An attachment; its payload is kept uninterpreted. */
  datatype Attachment = Attachment(attachmentType: string, payload: Option<Json>)

  datatype MessageBody = MessageBody(mid: string, seqNo: int, text: Option<string>, attachments: seq<Attachment>)

  datatype Message = Message(
    body: MessageBody,
    recipient: Recipient,
    timestamp: int,
    sender: Option<User>,
    link: Option<Json>,
    stat: Option<Json>,
    url: Option<string>)

  datatype Callback = Callback(
    timestamp: int,
    callbackId: string,
    user: User,
    payload: Option<string>,
    message: Option<Message>)

  datatype Update = Update(
    kind: UpdateKind,
    timestamp: int,
    raw: Json,
    message: Option<Message>,
    callback: Option<Callback>,
    user: Option<User>,
    chatId: Option<int>,
    payload: Option<string>,
    userLocale: Option<string>)

  /** Python truthiness of an optional string: present and non-empty. */
  predicate NonEmpty(s: Option<string>) {
    s.Some? && s.value != ""
  }

  // User

  /** `User.from_dict`. */
  function ParseUser(data: map<string, Json>): (u: User)
    ensures "user_id" !in data ==> u.userId == 0
    ensures "first_name" !in data ==> u.firstName == ""
    ensures "is_bot" !in data ==> !u.isBot
    ensures "last_name" !in data ==> u.lastName.None?
    ensures "username" !in data ==> u.username.None?
  {
    User(
      IntOr(data, "user_id", 0),
      StrOr(data, "first_name", ""),
      OptStr(data, "last_name"),
      OptStr(data, "username"),
      BoolOr(data, "is_bot", false),
      OptInt(data, "last_activity_time"),
      OptStr(data, "description"),
      OptStr(data, "avatar_url"),
      OptStr(data, "full_avatar_url"))
  }

  /** `User.full_name`: the first name, followed by a space and the last name
      when there is a non-empty one. */
  function FullName(u: User): (r: string)
    ensures u.firstName <= r
    ensures r == u.firstName <==> !NonEmpty(u.lastName)
    ensures NonEmpty(u.lastName) ==> r[|u.firstName|..] == " " + u.lastName.value
  {
    if NonEmpty(u.lastName) then u.firstName + " " + u.lastName.value else u.firstName
  }

  /** `User.mention`: "@username" when there is a non-empty username, the
      first name otherwise. */
  function Mention(u: User): (r: string)
    ensures NonEmpty(u.username) ==> |r| > 1 && r[0] == '@' && r[1..] == u.username.value
    ensures !NonEmpty(u.username) ==> r == u.firstName
  {
    if NonEmpty(u.username) then "@" + u.username.value else u.firstName
  }

  // Recipient, attachments, body

  /** `Recipient.from_dict`: every field is optional. */
  function ParseRecipient(data: map<string, Json>): (r: Recipient)
    ensures data == map[] ==> r == Recipient(None, None, None)
  {
    Recipient(OptInt(data, "chat_id"), OptStr(data, "chat_type"), OptInt(data, "user_id"))
  }

  /** `Attachment.from_dict`. */
  function ParseAttachment(data: map<string, Json>): (a: Attachment)
    ensures "type" !in data ==> a.attachmentType == ""
  {
    Attachment(StrOr(data, "type", ""), OptValue(data, "payload"))
  }

  /** The list comprehension over the raw attachments: it raises on the first
      element that is not an object, and otherwise parses every element, in
      order. */
  function ParseAttachments(items: seq<Json>): (r: Result<seq<Attachment>>)
    ensures r.Ok? <==> forall i | 0 <= i < |items| :: items[i].JObj?
    ensures r.Ok? ==> |r.value| == |items|
    ensures r.Ok? ==> forall i | 0 <= i < |items| :: r.value[i] == ParseAttachment(items[i].fields)
    decreases |items|
  {
    if items == [] then Ok([])
    else if !items[0].JObj? then Err("AttributeError: attachment has no attribute 'get'")
    else
      var rest :- ParseAttachments(items[1..]);
      Ok([ParseAttachment(items[0].fields)] + rest)
  }

  /** The attachments of a body: none when the key is missing or falsy; a
      truthy value that is not a list raises (it is either not iterable or
      iterates over strings). */
  function BodyAttachments(data: map<string, Json>): (r: Result<seq<Attachment>>)
    ensures ("attachments" !in data || !Truthy(data["attachments"])) ==> r == Ok([])
    ensures "attachments" in data && data["attachments"].JList? ==>
      r == ParseAttachments(data["attachments"].items)
  {
    if "attachments" !in data || !Truthy(data["attachments"]) then Ok([])
    else if data["attachments"].JList? then ParseAttachments(data["attachments"].items)
    else Err("TypeError: attachments is not a list of objects")
  }

  /** `MessageBody.from_dict`. */
  function ParseBody(data: map<string, Json>): (r: Result<MessageBody>)
    ensures r.Ok? ==> ("mid" !in data ==> r.value.mid == "") && ("seq" !in data ==> r.value.seqNo == 0)
    ensures r.Ok? <==> BodyAttachments(data).Ok?
    ensures r.Ok? ==> r.value.attachments == BodyAttachments(data).value
  {
    var attachments :- BodyAttachments(data);
    Ok(MessageBody(StrOr(data, "mid", ""), IntOr(data, "seq", 0), OptStr(data, "text"), attachments))
  }

  // Message

  /** `Message.from_dict`: the sender is parsed only when truthy; recipient
      and body default to empty objects. */
  function ParseMessage(data: map<string, Json>): (r: Result<Message>)
    ensures r.Ok? ==> (r.value.sender.Some? <==> "sender" in data && Truthy(data["sender"]))
    ensures r.Ok? ==> ObjectOrEmpty(data, "recipient").Ok?
                      && r.value.recipient == ParseRecipient(ObjectOrEmpty(data, "recipient").value)
    ensures "recipient" in data && !data["recipient"].JObj? ==> r.Err?
    ensures "body" in data && !data["body"].JObj? ==> r.Err?
  {
    var senderData :- TruthyObject(data, "sender");
    var recipientData :- ObjectOrEmpty(data, "recipient");
    var bodyData :- ObjectOrEmpty(data, "body");
    var body :- ParseBody(bodyData);
    var sender := if senderData.Some? then Some(ParseUser(senderData.value)) else None;
    Ok(Message(body, ParseRecipient(recipientData), IntOr(data, "timestamp", 0), sender,
               OptValue(data, "link"), OptValue(data, "stat"), OptStr(data, "url")))
  }

  /** `Message.text`. */
  function MessageText(m: Message): Option<string> {
    m.body.text
  }

  /** `Message.message_id`. */
  function MessageId(m: Message): string {
    m.body.mid
  }

  /** `Message.chat_id`. */
  function MessageChatId(m: Message): Option<int> {
    m.recipient.chatId
  }

  /** `Message.user_id`: the sender's id, None exactly when there is no sender. */
  function MessageUserId(m: Message): (r: Option<int>)
    ensures r.None? <==> m.sender.None?
    ensures r.Some? ==> r.value == m.sender.value.userId
  {
    if m.sender.Some? then Some(m.sender.value.userId) else None
  }

  /** `Message.from_user`, an alias of the sender. */
  function FromUser(m: Message): Option<User> {
    m.sender
  }

  // Callback and Update

  /** `Callback.from_dict(data, message)`: the user defaults to an empty object. */
  function ParseCallback(data: map<string, Json>, message: Option<Message>): (r: Result<Callback>)
    ensures r.Ok? <==> "user" !in data || data["user"].JObj?
    ensures r.Ok? ==> r.value.message == message
  {
    var userData :- ObjectOrEmpty(data, "user");
    Ok(Callback(IntOr(data, "timestamp", 0), StrOr(data, "callback_id", ""), ParseUser(userData),
                OptStr(data, "payload"), message))
  }

  function ParseOptionalMessage(data: map<string, Json>): (r: Result<Option<Message>>)
    ensures r.Ok? ==> (r.value.Some? <==> "message" in data && Truthy(data["message"]))
  {
    var messageData :- TruthyObject(data, "message");
    if messageData.None? then Ok(None)
    else
      var m :- ParseMessage(messageData.value);
      Ok(Some(m))
  }

  function ParseOptionalCallback(data: map<string, Json>, message: Option<Message>): (r: Result<Option<Callback>>)
    ensures r.Ok? ==> (r.value.Some? <==> "callback" in data && Truthy(data["callback"]))
    ensures r.Ok? && r.value.Some? ==> r.value.value.message == message
  {
    var callbackData :- TruthyObject(data, "callback");
    if callbackData.None? then Ok(None)
    else
      var c :- ParseCallback(callbackData.value, message);
      Ok(Some(c))
  }

  function ParseOptionalUser(data: map<string, Json>): (r: Result<Option<User>>)
    ensures r.Ok? ==> (r.value.Some? <==> "user" in data && Truthy(data["user"]))
  {
    var userData :- TruthyObject(data, "user");
    Ok(if userData.None? then None else Some(ParseUser(userData.value)))
  }

  /** `Update.from_dict`: classifies the kind (never failing on the string),
      builds each sub-record only when its key holds a truthy value, and hands
      the parsed message to the callback. It raises only on a structurally
      malformed record. */
  function ParseUpdate(raw: Json): (r: Result<Update>)
    ensures !raw.JObj? ==> r.Err?
    ensures r.Ok? ==> r.value.raw == raw
    ensures r.Ok? ==> KindName(r.value.kind) == StrOr(raw.fields, "update_type", "")
    ensures r.Ok? ==> CanonicalKind(r.value.kind)
    ensures r.Ok? ==> (r.value.message.Some? <==> "message" in raw.fields && Truthy(raw.fields["message"]))
    ensures r.Ok? ==> (r.value.callback.Some? <==> "callback" in raw.fields && Truthy(raw.fields["callback"]))
    ensures r.Ok? ==> (r.value.user.Some? <==> "user" in raw.fields && Truthy(raw.fields["user"]))
    ensures r.Ok? && r.value.callback.Some? ==> r.value.callback.value.message == r.value.message
  {
    if !raw.JObj? then Err("AttributeError: update record has no attribute 'get'")
    else
      var data := raw.fields;
      var kind := Classify(StrOr(data, "update_type", ""));
      var message :- ParseOptionalMessage(data);
      var callback :- ParseOptionalCallback(data, message);
      var user :- ParseOptionalUser(data);
      Ok(Update(kind, IntOr(data, "timestamp", 0), raw, message, callback, user,
                OptInt(data, "chat_id"), OptStr(data, "payload"), OptStr(data, "user_locale")))
  }

  /** A record without `update_type` gets the empty kind string, and any
      unknown kind string is kept verbatim. */
  lemma ParseUpdateKind(raw: Json)
    requires raw.JObj? && ParseUpdate(raw).Ok?
    ensures "update_type" !in raw.fields ==> ParseUpdate(raw).value.kind == Other("")
    ensures "update_type" in raw.fields && raw.fields["update_type"].JStr?
            && raw.fields["update_type"].s !in KnownKindNames
            ==> ParseUpdate(raw).value.kind == Other(raw.fields["update_type"].s)
  {
    var k := ParseUpdate(raw).value.kind;
    assert KindName(k) == StrOr(raw.fields, "update_type", "");
    if !k.Other? {
      assert KindName(k) in KnownKindNames;
    }
  }

  /** An update record whose only content is an empty object for every
      sub-record gets none of them. */
  lemma EmptySubRecordsAreAbsent(kind: string)
    ensures var u := ParseUpdate(JObj(map["update_type" := JStr(kind), "message" := JObj(map[]),
                                          "callback" := JObj(map[]), "user" := JObj(map[])]));
            u.Ok? && u.value.message.None? && u.value.callback.None? && u.value.user.None?
  {
  }

  // Encoding typed records back into raw payloads. Parsing the encoding of a
  // well-formed record gives the record back: the parsers lose nothing that
  // the typed model holds, and every well-formed update is reachable.

  function StrOrNull(s: Option<string>): Json {
    if s.Some? then JStr(s.value) else JNull
  }

  function IntOrNull(i: Option<int>): Json {
    if i.Some? then JInt(i.value) else JNull
  }

  function ValueOrNull(v: Option<Json>): Json {
    if v.Some? then v.value else JNull
  }

  /** An uninterpreted value that Python would read as present: `null` is read as absent. */
  predicate PresentValue(v: Option<Json>) {
    v != Some(JNull)
  }

  predicate WellFormedMessage(m: Message) {
    && PresentValue(m.link)
    && PresentValue(m.stat)
    && forall i | 0 <= i < |m.body.attachments| :: PresentValue(m.body.attachments[i].payload)
  }

  /** The updates `Update.from_dict` can produce, apart from `raw`. */
  predicate WellFormedUpdate(u: Update) {
    && CanonicalKind(u.kind)
    && (u.message.Some? ==> WellFormedMessage(u.message.value))
    && (u.callback.Some? ==> u.callback.value.message == u.message)
  }

  function EncodeUser(u: User): map<string, Json> {
    map[
      "user_id" := JInt(u.userId),
      "first_name" := JStr(u.firstName),
      "last_name" := StrOrNull(u.lastName),
      "username" := StrOrNull(u.username),
      "is_bot" := JBool(u.isBot),
      "last_activity_time" := IntOrNull(u.lastActivityTime),
      "description" := StrOrNull(u.description),
      "avatar_url" := StrOrNull(u.avatarUrl),
      "full_avatar_url" := StrOrNull(u.fullAvatarUrl)
    ]
  }

  function EncodeRecipient(r: Recipient): map<string, Json> {
    map["chat_id" := IntOrNull(r.chatId), "chat_type" := StrOrNull(r.chatType), "user_id" := IntOrNull(r.userId)]
  }

  function EncodeAttachment(a: Attachment): map<string, Json> {
    map["type" := JStr(a.attachmentType), "payload" := ValueOrNull(a.payload)]
  }

  function EncodeAttachments(attachments: seq<Attachment>): (items: seq<Json>)
    ensures |items| == |attachments|
    ensures forall i | 0 <= i < |items| :: items[i] == JObj(EncodeAttachment(attachments[i]))
  {
    if attachments == [] then []
    else [JObj(EncodeAttachment(attachments[0]))] + EncodeAttachments(attachments[1..])
  }

  function EncodeBody(b: MessageBody): map<string, Json> {
    map[
      "mid" := JStr(b.mid),
      "seq" := JInt(b.seqNo),
      "text" := StrOrNull(b.text),
      "attachments" := JList(EncodeAttachments(b.attachments))
    ]
  }

  function EncodeMessage(m: Message): map<string, Json> {
    map[
      "sender" := if m.sender.Some? then JObj(EncodeUser(m.sender.value)) else JNull,
      "recipient" := JObj(EncodeRecipient(m.recipient)),
      "body" := JObj(EncodeBody(m.body)),
      "timestamp" := JInt(m.timestamp),
      "link" := ValueOrNull(m.link),
      "stat" := ValueOrNull(m.stat),
      "url" := StrOrNull(m.url)
    ]
  }

  function EncodeCallback(c: Callback): map<string, Json> {
    map[
      "timestamp" := JInt(c.timestamp),
      "callback_id" := JStr(c.callbackId),
      "user" := JObj(EncodeUser(c.user)),
      "payload" := StrOrNull(c.payload)
    ]
  }

  function EncodeUpdate(u: Update): Json {
    JObj(map[
      "update_type" := JStr(KindName(u.kind)),
      "timestamp" := JInt(u.timestamp),
      "message" := if u.message.Some? then JObj(EncodeMessage(u.message.value)) else JNull,
      "callback" := if u.callback.Some? then JObj(EncodeCallback(u.callback.value)) else JNull,
      "user" := if u.user.Some? then JObj(EncodeUser(u.user.value)) else JNull,
      "chat_id" := IntOrNull(u.chatId),
      "payload" := StrOrNull(u.payload),
      "user_locale" := StrOrNull(u.userLocale)
    ])
  }

  lemma UserRoundTrip(u: User)
    ensures ParseUser(EncodeUser(u)) == u
  {
  }

  lemma {:induction false} AttachmentsRoundTrip(attachments: seq<Attachment>)
    requires forall i | 0 <= i < |attachments| :: PresentValue(attachments[i].payload)
    ensures ParseAttachments(EncodeAttachments(attachments)) == Ok(attachments)
  {
    if attachments != [] {
      AttachmentsRoundTrip(attachments[1..]);
      var items := EncodeAttachments(attachments);
      assert items[1..] == EncodeAttachments(attachments[1..]);
      assert ParseAttachment(items[0].fields) == attachments[0];
      assert attachments == [attachments[0]] + attachments[1..];
    }
  }

  lemma BodyRoundTrip(b: MessageBody)
    requires forall i | 0 <= i < |b.attachments| :: PresentValue(b.attachments[i].payload)
    ensures ParseBody(EncodeBody(b)) == Ok(b)
  {
    AttachmentsRoundTrip(b.attachments);
    var data := EncodeBody(b);
    if b.attachments == [] {
      assert !Truthy(data["attachments"]);
    }
    assert BodyAttachments(data) == Ok(b.attachments);
  }

  /** The plain fields of an encoded message read back unchanged. */
  lemma MessageLeavesRoundTrip(m: Message)
    requires WellFormedMessage(m)
    ensures var data := EncodeMessage(m);
            && IntOr(data, "timestamp", 0) == m.timestamp
            && OptValue(data, "link") == m.link
            && OptValue(data, "stat") == m.stat
            && OptStr(data, "url") == m.url
            && ObjectOrEmpty(data, "recipient") == Ok(EncodeRecipient(m.recipient))
            && ObjectOrEmpty(data, "body") == Ok(EncodeBody(m.body))
  {
  }

  lemma SenderRoundTrip(m: Message)
    ensures var sender := TruthyObject(EncodeMessage(m), "sender");
            && sender.Ok?
            && (if sender.value.Some? then Some(ParseUser(sender.value.value)) else None) == m.sender
  {
    var data := EncodeMessage(m);
    if m.sender.Some? {
      UserRoundTrip(m.sender.value);
      assert "user_id" in EncodeUser(m.sender.value);
      assert data["sender"] == JObj(EncodeUser(m.sender.value));
    } else {
      assert data["sender"] == JNull;
    }
  }

  lemma MessageRoundTrip(m: Message)
    requires WellFormedMessage(m)
    ensures ParseMessage(EncodeMessage(m)) == Ok(m)
  {
    BodyRoundTrip(m.body);
    MessageLeavesRoundTrip(m);
    SenderRoundTrip(m);
    var data := EncodeMessage(m);
    assert ParseRecipient(EncodeRecipient(m.recipient)) == m.recipient;
  }

  lemma CallbackRoundTrip(c: Callback)
    ensures ParseCallback(EncodeCallback(c), c.message) == Ok(c)
  {
    UserRoundTrip(c.user);
    assert ObjectOrEmpty(EncodeCallback(c), "user") == Ok(EncodeUser(c.user));
  }

  /** The sub-record entries of an encoded update: an object when present, null otherwise. */
  lemma EncodedSubRecords(u: Update)
    ensures var data := EncodeUpdate(u).fields;
            && "message" in data && "callback" in data && "user" in data
            && data["message"] == (if u.message.Some? then JObj(EncodeMessage(u.message.value)) else JNull)
            && data["callback"] == (if u.callback.Some? then JObj(EncodeCallback(u.callback.value)) else JNull)
            && data["user"] == (if u.user.Some? then JObj(EncodeUser(u.user.value)) else JNull)
  {
  }

  lemma OptionalMessageFrom(data: map<string, Json>, message: Option<Message>)
    requires message.Some? ==> WellFormedMessage(message.value)
    requires "message" in data
    requires data["message"] == (if message.Some? then JObj(EncodeMessage(message.value)) else JNull)
    ensures ParseOptionalMessage(data) == Ok(message)
  {
    if message.Some? {
      MessageRoundTrip(message.value);
      assert "sender" in EncodeMessage(message.value);
    }
  }

  lemma OptionalCallbackFrom(data: map<string, Json>, callback: Option<Callback>, message: Option<Message>)
    requires callback.Some? ==> callback.value.message == message
    requires "callback" in data
    requires data["callback"] == (if callback.Some? then JObj(EncodeCallback(callback.value)) else JNull)
    ensures ParseOptionalCallback(data, message) == Ok(callback)
  {
    if callback.Some? {
      CallbackRoundTrip(callback.value);
      assert "user" in EncodeCallback(callback.value);
    }
  }

  lemma OptionalUserFrom(data: map<string, Json>, user: Option<User>)
    requires "user" in data
    requires data["user"] == (if user.Some? then JObj(EncodeUser(user.value)) else JNull)
    ensures ParseOptionalUser(data) == Ok(user)
  {
    if user.Some? {
      UserRoundTrip(user.value);
      assert "user_id" in EncodeUser(user.value);
    }
  }

  lemma OptionalMessageRoundTrip(u: Update)
    requires u.message.Some? ==> WellFormedMessage(u.message.value)
    ensures ParseOptionalMessage(EncodeUpdate(u).fields) == Ok(u.message)
  {
    EncodedSubRecords(u);
    OptionalMessageFrom(EncodeUpdate(u).fields, u.message);
  }

  lemma OptionalCallbackRoundTrip(u: Update)
    requires u.callback.Some? ==> u.callback.value.message == u.message
    ensures ParseOptionalCallback(EncodeUpdate(u).fields, u.message) == Ok(u.callback)
  {
    EncodedSubRecords(u);
    OptionalCallbackFrom(EncodeUpdate(u).fields, u.callback, u.message);
  }

  lemma OptionalUserRoundTrip(u: Update)
    ensures ParseOptionalUser(EncodeUpdate(u).fields) == Ok(u.user)
  {
    EncodedSubRecords(u);
    OptionalUserFrom(EncodeUpdate(u).fields, u.user);
  }

  lemma UpdateLeavesRoundTrip(u: Update)
    ensures var data := EncodeUpdate(u).fields;
            && StrOr(data, "update_type", "") == KindName(u.kind)
            && IntOr(data, "timestamp", 0) == u.timestamp
            && OptInt(data, "chat_id") == u.chatId
            && OptStr(data, "payload") == u.payload
            && OptStr(data, "user_locale") == u.userLocale
  {
  }

  /** Parsing the encoding of a well-formed update gives the update back,
      with the encoding as its raw payload. */
  lemma UpdateRoundTrip(u: Update)
    requires WellFormedUpdate(u)
    ensures ParseUpdate(EncodeUpdate(u)) == Ok(u.(raw := EncodeUpdate(u)))
  {
    ClassifyKindName(u.kind);
    UpdateLeavesRoundTrip(u);
    OptionalMessageRoundTrip(u);
    OptionalCallbackRoundTrip(u);
    OptionalUserRoundTrip(u);
  }
}
