/** The chat routes: `POST /addMessage`, `GET /getChatsByStatus` and `PUT /updateChatStatus`.
    Each is a chain of guards in front of one service call and a mapping of the service's outcome
    to a reply. */
module ChatRoutes {
  import opened Common
  import opened Http
  import opened Store
  import opened Text
  import ChatService

  /** `'ongoing' | 'completed'` as a query or body string. */
  function ParseStatus(s: string): Option<Status> {
    if s == "ongoing" then Some(Ongoing) else if s == "completed" then Some(Completed) else None
  }

  function StatusName(st: Status): string {
    match st
    case Ongoing => "ongoing"
    case Completed => "completed"
  }

  /** The two accepted strings are exactly the names of the two states. */
  lemma StatusNamesRoundTrip(s: string, st: Status)
    ensures ParseStatus(StatusName(st)) == Some(st)
    ensures ParseStatus(s) == Some(st) <==> s == StatusName(st)
  {
  }

  function ParseRole(s: string): Option<ChatService.Role> {
    if s == "questioner" then Some(ChatService.Questioner)
    else if s == "answerer" then Some(ChatService.Answerer)
    else None
  }

  function RoleName(r: ChatService.Role): string {
    match r
    case Questioner => "questioner"
    case Answerer => "answerer"
  }

  lemma RoleNamesRoundTrip(s: string, r: ChatService.Role)
    ensures ParseRole(RoleName(r)) == Some(r)
    ensures ParseRole(s) == Some(r) <==> s == RoleName(r)
  {
  }

  // ---------------------------------------------------------------- addMessage

  const MissingParameters := "缺少必要参数 chatId 或 content"
  const NoSender := "无法获取发送者用户名"

  /** The fields of the authenticated token that name its holder. */
  datatype TokenUser = TokenUser(username: Option<string>, name: Option<string>)

  datatype AddMessageRequest = AddMessageRequest(
    chatId: Option<Id>,
    content: Option<string>,
    senderUsername: Option<string>,
    user: Option<TokenUser>)

  /** `senderUsername || user?.username || user?.name`, with a falsy outcome as `None`. */
  function SenderOf(req: AddMessageRequest): (s: Option<string>)
    ensures s.Some? ==> s.value != ""
    ensures Truthy(req.senderUsername) ==> s == req.senderUsername
    ensures !Truthy(req.senderUsername) && req.user.Some? && Truthy(req.user.value.username) ==>
      s == req.user.value.username
    ensures !Truthy(req.senderUsername) && !(req.user.Some? && Truthy(req.user.value.username)) ==>
      s == (if req.user.Some? && Truthy(req.user.value.name) then req.user.value.name else None)
  {
    if Truthy(req.senderUsername) then req.senderUsername
    else if req.user.Some? && Truthy(req.user.value.username) then req.user.value.username
    else if req.user.Some? && Truthy(req.user.value.name) then req.user.value.name
    else None
  }

  /** The name in the body wins over the token's, whoever holds the token. */
  lemma BodySenderWins(req: AddMessageRequest, token: TokenUser)
    requires Truthy(req.senderUsername)
    ensures SenderOf(req.(user := Some(token))) == SenderOf(req.(user := None)) == req.senderUsername
  {
  }

  datatype AddCall = AddCall(chatId: Id, senderUsername: string, content: string)

  /** The guards: chat id and content first, then the sender. */
  function AdmitAddMessage(req: AddMessageRequest): (g: Gate<AddCall>)
    ensures req.chatId.None? || !Truthy(req.content) ==> g == Halt(400, "MISSING_PARAMETERS", MissingParameters)
    ensures req.chatId.Some? && Truthy(req.content) && SenderOf(req).None? ==> g == Halt(401, "UNAUTHORIZED", NoSender)
    ensures g.Proceed? <==> req.chatId.Some? && Truthy(req.content) && SenderOf(req).Some?
    ensures g.Proceed? ==> g.args == AddCall(req.chatId.value, SenderOf(req).value, req.content.value)
  {
    if req.chatId.None? || !Truthy(req.content) then
      Halt(400, "MISSING_PARAMETERS", MissingParameters)
    else if SenderOf(req).None? then
      Halt(401, "UNAUTHORIZED", NoSender)
    else
      Proceed(AddCall(req.chatId.value, SenderOf(req).value, req.content.value))
  }

  /** The projection of an updated chat: its id, how many messages it has, and the last one. */
  datatype MessageAdded = MessageAdded(chatId: Id, messageCount: nat, lastMessage: Option<Message>)

  function AddMessageReply(r: Result<Stored<Chat>>): (reply: Reply<MessageAdded>)
    ensures r.Ok? <==> reply.Success?
    ensures r.Ok? ==>
      var msgs := r.value.record.messages;
      && reply.body.chatId == r.value.id
      && reply.body.messageCount == |msgs|
      && reply.body.lastMessage == (if msgs == [] then None else Some(msgs[|msgs| - 1]))
    ensures r.Err? ==> (reply.refusal.status == 404 <==> r.error.message == ChatService.ChatNotFound)
    ensures r.Err? ==> (reply.refusal.status == 403 <==>
                          r.error.message in {ChatService.NotParticipant, ChatService.ChatEnded})
    ensures r.Err? && r.error.message !in {ChatService.ChatNotFound, ChatService.NotParticipant, ChatService.ChatEnded} ==>
      reply == Refuse(500, "SERVER_ERROR", MessageOr(r.error, "服务器错误"))
  {
    match r
    case Ok(c) =>
      var msgs := c.record.messages;
      Success(MessageAdded(c.id, |msgs|, if msgs == [] then None else Some(msgs[|msgs| - 1])))
    case Err(e) =>
      if e.message == ChatService.ChatNotFound then Refuse(404, "CHAT_NOT_FOUND", e.message)
      else if e.message == ChatService.NotParticipant || e.message == ChatService.ChatEnded then
        Refuse(403, "PERMISSION_DENIED", e.message)
      else Refuse(500, "SERVER_ERROR", MessageOr(e, "服务器错误"))
  }

  /** How the service's four refusals reach the client: a missing chat is 404, a stranger or an
      ended chat 403, and an unregistered sender falls through to 500. */
  lemma AppendRefusalStatus(message: string)
    requires message in {ChatService.ChatNotFound, ChatService.SenderNotFound, ChatService.NotParticipant, ChatService.ChatEnded}
    ensures StatusOf(AddMessageReply(Fail(message))) ==
      if message == ChatService.ChatNotFound then 404
      else if message == ChatService.SenderNotFound then 500
      else 403
  {
  }

  /** `POST /addMessage`: after the guards, the service appends the message, and the reply
      reports the new message count and the appended message as the last one. */
  method AddMessage(db: Db, req: AddMessageRequest, now: nat, patchUp: bool, reindexUp: bool)
    returns (reply: Reply<MessageAdded>)
    requires db.Valid()
    modifies db`chats, db`chatIndex
    ensures db.Valid()
    ensures AdmitAddMessage(req).Stop? ==>
      reply == Refused(AdmitAddMessage(req).refusal) && db.chats == old(db.chats) && db.chatIndex == old(db.chatIndex)
    ensures AdmitAddMessage(req).Proceed? ==>
      var call := AdmitAddMessage(req).args;
      var refusal := ChatService.AppendRefusal(old(db.chats), db.users, call.chatId, call.senderUsername);
      && (refusal.Some? ==>
            reply == AddMessageReply(Fail(refusal.value)) && db.chats == old(db.chats) && db.chatIndex == old(db.chatIndex))
      && (refusal.None? ==>
            var before := old(db.chats[call.chatId]);
            var m := Message(UserIdByName(db.users, call.senderUsername).value, call.senderUsername, call.content, now);
            var updated := before.(messages := before.messages + [m], updatedAt := now);
            && reply == Success(MessageAdded(call.chatId, |before.messages| + 1, Some(m)))
            && db.chats == old(db.chats)[call.chatId := updated]
            && db.chatIndex == ChatService.Mirror(old(db.chatIndex), call.chatId, ChatService.MessagesPatch(updated.messages, now),
                                                  updated, patchUp, reindexUp))
  {
    var gate := AdmitAddMessage(req);
    if gate.Stop? {
      return Refused(gate.refusal);
    }
    var call := gate.args;
    var r := ChatService.AddMessageToChat(db, call.chatId, call.senderUsername, call.content, now, patchUp, reindexUp);
    reply := AddMessageReply(r);
  }

  // ---------------------------------------------------------------- getChatsByStatus

  const Unauthenticated := "用户未认证"
  const InvalidStatus := "状态参数无效，必须是 ongoing 或 completed"
  const InvalidRole := "角色参数无效，必须是 questioner 或 answerer"

  /** The authenticated user: what the service reads, and the id the reply echoes (`id || _id`). */
  datatype AuthUser = AuthUser(caller: ChatService.Caller, id: Option<Id>)

  datatype ListingRequest = ListingRequest(user: Option<AuthUser>, status: Option<string>, role: Option<string>)

  /** A given (truthy) string that is not one of the accepted names. */
  predicate BadStatus(s: Option<string>) {
    Truthy(s) && ParseStatus(s.value).None?
  }

  predicate BadRole(s: Option<string>) {
    Truthy(s) && ParseRole(s.value).None?
  }

  /** The guards: authentication, then status, then role; the service gets `{status, role}` and
      never a community. */
  function AdmitListing(req: ListingRequest): (g: Gate<ChatService.ChatOptions>)
    ensures req.user.None? ==> g == Halt(401, "UNAUTHORIZED", Unauthenticated)
    ensures req.user.Some? && BadStatus(req.status) ==> g == Halt(400, "INVALID_STATUS", InvalidStatus)
    ensures req.user.Some? && !BadStatus(req.status) && BadRole(req.role) ==> g == Halt(400, "INVALID_ROLE", InvalidRole)
    ensures g.Proceed? <==> req.user.Some? && !BadStatus(req.status) && !BadRole(req.role)
    ensures g.Proceed? ==>
      && g.args.community.None?
      && (Truthy(req.status) <==> g.args.status.Some?)
      && (g.args.status.Some? ==> req.status == Some(StatusName(g.args.status.value)))
      && (Truthy(req.role) <==> g.args.role.Some?)
      && (g.args.role.Some? ==> req.role == Some(RoleName(g.args.role.value)))
  {
    if req.user.None? then
      Halt(401, "UNAUTHORIZED", Unauthenticated)
    else if BadStatus(req.status) then
      Halt(400, "INVALID_STATUS", InvalidStatus)
    else if BadRole(req.role) then
      Halt(400, "INVALID_ROLE", InvalidRole)
    else
      Proceed(ChatService.ChatOptions(if Truthy(req.status) then ParseStatus(req.status.value) else None,
                                      if Truthy(req.role) then ParseRole(req.role.value) else None,
                                      None))
  }

  /** The listing reply: the rows, their number, the filters as asked (`'all'` when absent) and
      the caller. */
  datatype Listing = Listing(
    data: seq<ChatService.ChatSummary>,
    total: nat,
    statusFilter: string,
    roleFilter: string,
    userId: Option<Id>,
    username: Option<string>)

  function FilterName(s: Option<string>): (name: string)
    ensures Truthy(s) ==> name == s.value
    ensures !Truthy(s) ==> name == "all"
  {
    if Truthy(s) then s.value else "all"
  }

  /** The classification of a failure, first match wins: the word Elasticsearch in the message,
      then MongoDB or Database, then the code `ECONNREFUSED`; anything else is a 500. */
  function ListingFailure(e: Error): (f: Refusal)
    ensures f.status == 503 <==>
      Contains(e.message, "Elasticsearch") || Contains(e.message, "MongoDB") ||
      Contains(e.message, "Database") || e.code == "ECONNREFUSED"
    ensures Contains(e.message, "Elasticsearch") ==>
      f == Refusal(503, Some("ELASTICSEARCH_ERROR"), "搜索服务暂时不可用，请稍后重试")
    ensures !Contains(e.message, "Elasticsearch") && (Contains(e.message, "MongoDB") || Contains(e.message, "Database")) ==>
      f == Refusal(503, Some("DATABASE_ERROR"), "数据库服务暂时不可用，请稍后重试")
    ensures !Contains(e.message, "Elasticsearch") && !Contains(e.message, "MongoDB") && !Contains(e.message, "Database") &&
            e.code == "ECONNREFUSED" ==>
      f == Refusal(503, Some("CONNECTION_ERROR"), "服务连接失败，请稍后重试")
    ensures f.status != 503 ==> f == Refusal(500, Some("SERVER_ERROR"), MessageOr(e, "获取对话列表失败"))
  {
    if Contains(e.message, "Elasticsearch") then
      Refusal(503, Some("ELASTICSEARCH_ERROR"), "搜索服务暂时不可用，请稍后重试")
    else if Contains(e.message, "MongoDB") || Contains(e.message, "Database") then
      Refusal(503, Some("DATABASE_ERROR"), "数据库服务暂时不可用，请稍后重试")
    else if e.code == "ECONNREFUSED" then
      Refusal(503, Some("CONNECTION_ERROR"), "服务连接失败，请稍后重试")
    else
      Refusal(500, Some("SERVER_ERROR"), MessageOr(e, "获取对话列表失败"))
  }

  /** A message without any Latin capital E, M or D is never classified as a backend outage. */
  lemma PlainMessageIsServerError(e: Error)
    requires forall i :: 0 <= i < |e.message| ==> e.message[i] !in {'E', 'M', 'D'}
    requires e.code != "ECONNREFUSED"
    ensures ListingFailure(e) == Refusal(500, Some("SERVER_ERROR"), MessageOr(e, "获取对话列表失败"))
  {
    AbsentFirstChar(e.message, "Elasticsearch");
    AbsentFirstChar(e.message, "MongoDB");
    AbsentFirstChar(e.message, "Database");
  }

  /** The service's own failures (a caller it cannot name) reach the client as 500 with the
      service's message, never as 503. */
  lemma CallerFailuresAreServerErrors(users: map<Id, User>, caller: ChatService.Caller)
    requires ChatService.ResolveCaller(users, caller).Err?
    ensures var e := ChatService.ResolveCaller(users, caller).error;
      ListingFailure(e) == Refusal(500, Some("SERVER_ERROR"), e.message)
  {
    var e := ChatService.ResolveCaller(users, caller).error;
    assert e.message in {ChatService.UserLookupFailed, ChatService.NoCallerName};
    PlainMessageIsServerError(e);
  }

  function ListingReply(req: ListingRequest, r: Result<seq<ChatService.ChatSummary>>): (reply: Reply<Listing>)
    requires req.user.Some?
    ensures r.Ok? <==> reply.Success?
    ensures r.Ok? ==>
      && reply.body.data == r.value && reply.body.total == |r.value|
      && reply.body.statusFilter == FilterName(req.status) && reply.body.roleFilter == FilterName(req.role)
      && reply.body.userId == req.user.value.id && reply.body.username == req.user.value.caller.username
    ensures r.Err? ==> reply.refusal == ListingFailure(r.error)
  {
    match r
    case Ok(rows) =>
      Success(Listing(rows, |rows|, FilterName(req.status), FilterName(req.role),
                      req.user.value.id, req.user.value.caller.username))
    case Err(e) => Refused(ListingFailure(e))
  }

  /** `GET /getChatsByStatus`: the guards, then the caller's listing for the parsed options. */
  method GetChatsByStatus(db: Db, req: ListingRequest) returns (reply: Reply<Listing>)
    ensures AdmitListing(req).Stop? ==> reply == Refused(AdmitListing(req).refusal)
    ensures AdmitListing(req).Proceed? ==>
      var caller := req.user.value.caller;
      var resolved := ChatService.ResolveCaller(db.users, caller);
      && (resolved.Err? ==> reply == Refuse(500, "SERVER_ERROR", resolved.error.message))
      && (resolved.Ok? ==>
            var q := ChatService.QueryFor(AdmitListing(req).args, resolved.value);
            reply.Success? &&
            var rows := reply.body.data;
            && reply.body.total == |rows| == Min(ChatService.ListingLimit, |Matching(db.chats, c => ChatService.Matches(q, c))|)
            && (forall i :: 0 <= i < |rows| ==>
                  rows[i].id in db.chats && ChatService.Matches(q, db.chats[rows[i].id])
                  && rows[i] == ChatService.Summarize(rows[i].id, db.chats[rows[i].id], resolved.value))
            && (forall i, j :: 0 <= i < j < |rows| ==> rows[i].id != rows[j].id)
            && (forall i, j :: 0 <= i < j < |rows| ==> rows[i].updatedAt >= rows[j].updatedAt)
            && (forall id :: id in Matching(db.chats, c => ChatService.Matches(q, c)) && (forall i :: 0 <= i < |rows| ==> rows[i].id != id) ==>
                  forall i :: 0 <= i < |rows| ==> db.chats[id].updatedAt <= rows[i].updatedAt)
            && reply.body.statusFilter == FilterName(req.status) && reply.body.roleFilter == FilterName(req.role)
            && reply.body.userId == req.user.value.id && reply.body.username == caller.username)
  {
    var gate := AdmitListing(req);
    if gate.Stop? {
      return Refused(gate.refusal);
    }
    var r := ChatService.GetChatsByConditions(db, req.user.value.caller, gate.args);
    if r.Err? {
      CallerFailuresAreServerErrors(db.users, req.user.value.caller);
    }
    reply := ListingReply(req, r);
  }

  // ---------------------------------------------------------------- updateChatStatus

  datatype StatusRequest = StatusRequest(chatId: Option<Id>, status: Option<string>)

  datatype StatusCall = StatusCall(chatId: Id, status: Status)

  /** The guards: a chat id, then a status that is one of the two names; either name is passed on,
      so `'ongoing'` reopens a completed chat. */
  function AdmitStatusChange(req: StatusRequest): (g: Gate<StatusCall>)
    ensures req.chatId.None? ==> g == Halt(400, "MISSING_CHAT_ID", "缺少 chatId 参数")
    ensures req.chatId.Some? && !(req.status.Some? && ParseStatus(req.status.value).Some?) ==>
      g == Halt(400, "INVALID_STATUS", InvalidStatus)
    ensures g.Proceed? <==> req.chatId.Some? && req.status.Some? && ParseStatus(req.status.value).Some?
    ensures g.Proceed? ==> g.args.chatId == req.chatId.value && req.status == Some(StatusName(g.args.status))
  {
    if req.chatId.None? then
      Halt(400, "MISSING_CHAT_ID", "缺少 chatId 参数")
    else if !Truthy(req.status) || ParseStatus(req.status.value).None? then
      Halt(400, "INVALID_STATUS", InvalidStatus)
    else
      Proceed(StatusCall(req.chatId.value, ParseStatus(req.status.value).value))
  }

  /** Both states reach the service unchanged. */
  lemma EitherStatusIsPassedOn(chatId: Id, st: Status)
    ensures AdmitStatusChange(StatusRequest(Some(chatId), Some(StatusName(st)))) == Proceed(StatusCall(chatId, st))
  {
  }

  function StatusChangeReply(r: Result<Stored<Chat>>): (reply: Reply<Stored<Chat>>)
    ensures r.Ok? <==> reply.Success?
    ensures r.Ok? ==> reply.body == r.value
    ensures r.Err? && r.error.message == ChatService.ChatNotFound ==> reply == Refuse(404, "CHAT_NOT_FOUND", r.error.message)
    ensures r.Err? && r.error.message != ChatService.ChatNotFound ==>
      reply == Refuse(500, "SERVER_ERROR", MessageOr(r.error, "服务器错误"))
  {
    match r
    case Ok(c) => Success(c)
    case Err(e) =>
      if e.message == ChatService.ChatNotFound then Refuse(404, "CHAT_NOT_FOUND", e.message)
      else Refuse(500, "SERVER_ERROR", MessageOr(e, "服务器错误"))
  }

  /** `PUT /updateChatStatus`: the guards, then the status change; the reply is 404 exactly when
      the chat is missing and otherwise carries the primary record. */
  method UpdateChatStatus(db: Db, req: StatusRequest, now: nat, patchUp: bool, reindexUp: bool)
    returns (reply: Reply<Stored<Chat>>)
    requires db.Valid()
    modifies db`chats, db`chatIndex
    ensures db.Valid()
    ensures AdmitStatusChange(req).Stop? ==>
      reply == Refused(AdmitStatusChange(req).refusal) && db.chats == old(db.chats) && db.chatIndex == old(db.chatIndex)
    ensures AdmitStatusChange(req).Proceed? ==>
      var call := AdmitStatusChange(req).args;
      && (call.chatId !in old(db.chats) ==>
            && reply == Refuse(404, "CHAT_NOT_FOUND", ChatService.ChatNotFound)
            && db.chats == old(db.chats) && db.chatIndex == old(db.chatIndex))
      && (call.chatId in old(db.chats) ==>
            var updated := old(db.chats[call.chatId]).(status := call.status, updatedAt := now);
            && reply == Success(Stored(call.chatId, updated))
            && db.chats == old(db.chats)[call.chatId := updated]
            && db.chatIndex == ChatService.Mirror(old(db.chatIndex), call.chatId, ChatService.StatusPatch(call.status, now),
                                                  updated, patchUp, reindexUp))
  {
    var gate := AdmitStatusChange(req);
    if gate.Stop? {
      return Refused(gate.refusal);
    }
    var r := ChatService.UpdateChatStatus(db, gate.args.chatId, gate.args.status, now, patchUp, reindexUp);
    reply := StatusChangeReply(r);
  }
}
