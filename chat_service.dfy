/** Chats: creation and update, lookup, the per-caller listing, the status change, the guarded
    message append and the evaluation counters. Every write goes to the primary store first and is
    then mirrored into the index, whose failures are swallowed. */
module ChatService {
  import opened Common
  import opened Store

  const MissingFields := "提问者用户名、回答者用户名和社区不能为空"
  const NoQuestioner := "提问者用户不存在: "
  const NoAnswerer := "回答者用户不存在: "
  const NoMessageSender := "消息发送者用户不存在: "
  const ChatNotFound := "对话不存在"
  const SenderNotFound := "发送者用户不存在"
  const NotParticipant := "无权限向此对话发送消息"
  const ChatEnded := "对话已结束，无法发送消息"
  const UserLookupFailed := "获取用户信息失败"
  const NoCallerName := "无法获取用户信息"
  const NoEvaluatedUser := "用户不存在: "

  /** The requested results of one listing. */
  const ListingLimit := 100

  // ---------------------------------------------------------------- saveChat

  /** A message of a `saveChat` request; `timestamp` is absent when the client sent none. */
  datatype MessageInput = MessageInput(senderUsername: string, content: string, timestamp: Option<nat>)

  /** A `saveChat` request. `id` names the chat to overwrite; a string field is `None` when absent. */
  datatype ChatInput = ChatInput(
    id: Option<Id>,
    questionUsername: Option<string>,
    answerUsername: Option<string>,
    content: Option<string>,
    community: Option<string>,
    tags: Option<seq<string>>,
    status: Option<Status>,
    messages: seq<MessageInput>)

  /** The position of the first message whose sender is not a known username, if any. */
  function FirstUnknownSender(users: map<Id, User>, msgs: seq<MessageInput>): (r: Option<nat>)
    ensures r.None? <==> forall i :: 0 <= i < |msgs| ==> UserIdByName(users, msgs[i].senderUsername).Some?
    ensures r.Some? ==> && r.value < |msgs|
                        && UserIdByName(users, msgs[r.value].senderUsername).None?
                        && forall j :: 0 <= j < r.value ==> UserIdByName(users, msgs[j].senderUsername).Some?
  {
    if msgs == [] then
      None
    else if UserIdByName(users, msgs[0].senderUsername).None? then
      Some(0)
    else
      var rest := FirstUnknownSender(users, msgs[1..]);
      assert forall j :: 1 <= j < |msgs| ==> msgs[j] == msgs[1..][j - 1];
      if rest.None? then None else Some(rest.value + 1)
  }

  /** The messages of a request with their senders resolved to identities, in request order; the
      first message whose sender is unknown makes the whole request fail. */
  function ResolveMessages(users: map<Id, User>, msgs: seq<MessageInput>, now: nat): (r: Result<seq<Message>>)
    ensures r.Ok? <==> FirstUnknownSender(users, msgs).None?
    ensures r.Ok? ==> |r.value| == |msgs|
    ensures r.Ok? ==> forall i :: 0 <= i < |msgs| ==>
      && UserIdByName(users, msgs[i].senderUsername) == Some(r.value[i].senderId)
      && r.value[i].senderUsername == msgs[i].senderUsername
      && r.value[i].content == msgs[i].content
      && r.value[i].timestamp == msgs[i].timestamp.GetOr(now)
    ensures r.Err? ==> r == Fail(NoMessageSender + msgs[FirstUnknownSender(users, msgs).value].senderUsername)
  {
    if msgs == [] then
      Ok([])
    else
      match UserIdByName(users, msgs[0].senderUsername)
      case None => Fail(NoMessageSender + msgs[0].senderUsername)
      case Some(senderId) =>
        var rest := ResolveMessages(users, msgs[1..], now);
        assert forall j :: 1 <= j < |msgs| ==> msgs[j] == msgs[1..][j - 1];
        if rest.Err? then
          Err(rest.error)
        else
          var m := Message(senderId, msgs[0].senderUsername, msgs[0].content, msgs[0].timestamp.GetOr(now));
          Ok([m] + rest.value)
  }

  /** The stored chat `existing` would not change if it took the fields of `c` other than
      `updatedAt`: the timestamps of the chat schema then leave `updatedAt` alone on `save()`. */
  predicate Unmodified(existing: Option<Chat>, c: Chat) {
    existing.Some? && c.(updatedAt := existing.value.updatedAt) == existing.value
  }

  /** The chat `saveChat` stores for a request, given the users and, when the request names a stored
      chat, that chat; or the first error: missing fields, unknown questioner, unknown answerer,
      unknown message sender. */
  function SavedChat(users: map<Id, User>, existing: Option<Chat>, input: ChatInput, now: nat): (r: Result<Chat>)
    ensures !Truthy(input.questionUsername) || !Truthy(input.answerUsername) || !Truthy(input.community) ==>
      r == Fail(MissingFields)
    ensures Truthy(input.questionUsername) && Truthy(input.answerUsername) && Truthy(input.community) ==>
      var q := UserIdByName(users, input.questionUsername.value);
      var a := UserIdByName(users, input.answerUsername.value);
      var msgs := ResolveMessages(users, input.messages, now);
      && (q.None? ==> r == Fail(NoQuestioner + input.questionUsername.value))
      && (q.Some? && a.None? ==> r == Fail(NoAnswerer + input.answerUsername.value))
      && (q.Some? && a.Some? && msgs.Err? ==> r == Err(msgs.error))
      && (q.Some? && a.Some? && msgs.Ok? ==>
          && r.Ok?
          && r.value.questionUserId == q.value && r.value.questionUsername == input.questionUsername.value
          && r.value.answerUserId == a.value && r.value.answerUsername == input.answerUsername.value
          && r.value.content == input.content.GetOr("")
          && r.value.community == input.community.value
          && r.value.tags == input.tags.GetOr([])
          && r.value.messages == msgs.value
          && r.value.status == input.status.GetOr(if existing.Some? then existing.value.status else Ongoing)
          && r.value.createdAt == (if existing.Some? then existing.value.createdAt else now)
          && (Unmodified(existing, r.value) ==> r.value == existing.value)
          && (!Unmodified(existing, r.value) ==> r.value.updatedAt == now))
  {
    if !Truthy(input.questionUsername) || !Truthy(input.answerUsername) || !Truthy(input.community) then
      Fail(MissingFields)
    else
      match UserIdByName(users, input.questionUsername.value)
      case None => Fail(NoQuestioner + input.questionUsername.value)
      case Some(q) =>
        match UserIdByName(users, input.answerUsername.value)
        case None => Fail(NoAnswerer + input.answerUsername.value)
        case Some(a) =>
          var msgs := ResolveMessages(users, input.messages, now);
          if msgs.Err? then
            Err(msgs.error)
          else
            var c := Chat(q, input.questionUsername.value, a, input.answerUsername.value, input.content.GetOr(""),
                          input.community.value, input.tags.GetOr([]),
                          input.status.GetOr(if existing.Some? then existing.value.status else Ongoing),
                          msgs.value, if existing.Some? then existing.value.createdAt else now, now);
            if Unmodified(existing, c) then Ok(existing.value) else Ok(c)
  }

  /** With every message stamped by the client, saving the same request again over the chat it
      produced changes nothing, `updatedAt` included. */
  lemma ResaveKeepsTheChat(users: map<Id, User>, existing: Option<Chat>, input: ChatInput, now: nat, later: nat)
    requires SavedChat(users, existing, input, now).Ok?
    requires forall i :: 0 <= i < |input.messages| ==> input.messages[i].timestamp.Some?
    ensures var c := SavedChat(users, existing, input, now).value;
      SavedChat(users, Some(c), input, later) == Ok(c)
  {
    var first := ResolveMessages(users, input.messages, now);
    var second := ResolveMessages(users, input.messages, later);
    assert second.Ok?;
    assert first.value == second.value by {
      forall i | 0 <= i < |input.messages| ensures first.value[i] == second.value[i] {
        assert Some(first.value[i].senderId) == Some(second.value[i].senderId);
      }
    }
  }

  /** The stored chat a `saveChat` request names, if any; a request naming an unknown chat creates one. */
  function Existing(chats: map<Id, Chat>, input: ChatInput): Option<Chat> {
    if input.id.Some? && input.id.value in chats then Some(chats[input.id.value]) else None
  }

  /** `saveChat`: validates, resolves the usernames, then overwrites the named chat or creates a new
      one, and indexes the result (without `_id`) under its identity. An index failure changes neither
      the result nor the primary write. */
  method SaveChat(db: Db, input: ChatInput, now: nat, indexUp: bool) returns (r: Result<Stored<Chat>>)
    requires db.Valid()
    modifies db`nextId, db`chats, db`chatIndex
    ensures db.Valid()
    ensures var saved := SavedChat(old(db.users), Existing(old(db.chats), input), input, now);
      && (saved.Err? ==> r == Err(saved.error) && db.chats == old(db.chats) && db.chatIndex == old(db.chatIndex))
      && (saved.Ok? ==>
            var id := if Existing(old(db.chats), input).Some? then input.id.value else old(db.nextId);
            && r == Ok(Stored(id, saved.value))
            && db.chats == old(db.chats)[id := saved.value]
            && db.chatIndex == (if indexUp then old(db.chatIndex)[id := saved.value] else old(db.chatIndex)))
  {
    var existing := Existing(db.chats, input);
    var saved := SavedChat(db.users, existing, input, now);
    if saved.Err? {
      return Err(saved.error);
    }
    var id := PutChat(db, if existing.Some? then input.id else None, saved.value, indexUp);
    r := Ok(Stored(id, saved.value));
  }

  /** The write of `saveChat`: over the chat `target` names, or under a new identity, then into the
      index when it is reachable. */
  method PutChat(db: Db, target: Option<Id>, chat: Chat, indexUp: bool) returns (id: Id)
    requires db.Valid()
    requires target.Some? ==> target.value in db.chats
    modifies db`nextId, db`chats, db`chatIndex
    ensures db.Valid()
    ensures id == (if target.Some? then target.value else old(db.nextId))
    ensures db.chats == old(db.chats)[id := chat]
    ensures db.chatIndex == if indexUp then old(db.chatIndex)[id := chat] else old(db.chatIndex)
  {
    if target.Some? {
      id := target.value;
    } else {
      id := db.NewId();
    }
    db.chats := db.chats[id := chat];
    if indexUp {
      db.chatIndex := db.chatIndex[id := chat];
    }
  }

  // ---------------------------------------------------------------- getChatById

  /** `getChatById`: the index document when the index has it, otherwise the primary record;
      "not found" only when the primary store lacks the chat as well. */
  function GetChatById(chats: map<Id, Chat>, chatIndex: map<Id, Chat>, chatId: Id, indexUp: bool): (r: Result<Chat>)
    ensures r == Fail(ChatNotFound) <==> chatId !in chats && !(indexUp && chatId in chatIndex)
    ensures r.Ok? ==> (indexUp && chatId in chatIndex && r.value == chatIndex[chatId])
                      || (chatId in chats && r.value == chats[chatId])
    ensures r.Ok? || r == Fail(ChatNotFound)
  {
    if indexUp && chatId in chatIndex then Ok(chatIndex[chatId])
    else if chatId in chats then Ok(chats[chatId])
    else Fail(ChatNotFound)
  }

  /** Every document the index holds is the current primary record. */
  predicate IndexCurrent(chats: map<Id, Chat>, chatIndex: map<Id, Chat>) {
    forall id :: id in chatIndex ==> id in chats && chatIndex[id] == chats[id]
  }

  /** While the index is current, the index-first read answers exactly what the primary store
      would, whether or not the index is reachable. */
  lemma GetChatByIdReadsThePrimary(chats: map<Id, Chat>, chatIndex: map<Id, Chat>, chatId: Id, indexUp: bool)
    requires IndexCurrent(chats, chatIndex)
    ensures GetChatById(chats, chatIndex, chatId, indexUp) ==
            (if chatId in chats then Ok(chats[chatId]) else Fail(ChatNotFound))
  {
  }

  // ---------------------------------------------------------------- getChatsByConditions

  /** The authenticated caller as the request carries it. */
  datatype Caller = Caller(username: Option<string>, name: Option<string>, userId: Option<Id>)

  datatype Role = Questioner | Answerer

  /** The listing options; `None` is "not given". */
  datatype ChatOptions = ChatOptions(status: Option<Status>, role: Option<Role>, community: Option<string>)

  /** The caller's username: `username`, else `name`, else the username of the `userId` account. */
  function ResolveCaller(users: map<Id, User>, caller: Caller): (r: Result<string>)
    ensures Truthy(caller.username) ==> r == Ok(caller.username.value)
    ensures !Truthy(caller.username) && Truthy(caller.name) ==> r == Ok(caller.name.value)
    ensures !Truthy(caller.username) && !Truthy(caller.name) ==>
      && (caller.userId.None? ==> r == Fail(NoCallerName))
      && (caller.userId.Some? && caller.userId.value !in users ==> r == Fail(UserLookupFailed))
      && (caller.userId.Some? && caller.userId.value in users ==>
            r == (if users[caller.userId.value].username == "" then Fail(NoCallerName)
                  else Ok(users[caller.userId.value].username)))
    ensures r.Ok? ==> r.value != ""
  {
    var given := if Truthy(caller.username) then caller.username.value
                 else if Truthy(caller.name) then caller.name.value
                 else "";
    if given == "" && caller.userId.Some? && caller.userId.value !in users then
      Fail(UserLookupFailed)
    else
      var name := if given == "" && caller.userId.Some? then users[caller.userId.value].username else given;
      if name == "" then Fail(NoCallerName) else Ok(name)
  }

  /** Which side of a chat the caller must be on. */
  datatype Party = AsQuestioner(name: string) | AsAnswerer(name: string) | EitherSide(name: string)

  /** The primary-store filter of a listing. */
  datatype Query = Query(status: Option<Status>, community: Option<string>, party: Party)

  predicate Matches(q: Query, c: Chat) {
    && (q.status.Some? ==> c.status == q.status.value)
    && (q.community.Some? ==> c.community == q.community.value)
    && match q.party
       case AsQuestioner(name) => c.questionUsername == name
       case AsAnswerer(name) => c.answerUsername == name
       case EitherSide(name) => c.questionUsername == name || c.answerUsername == name
  }

  /** The filter for the options and the caller's username: status and community only when given. */
  function QueryFor(opts: ChatOptions, name: string): Query {
    Query(opts.status, if Truthy(opts.community) then opts.community else None,
          match opts.role
          case Some(Questioner) => AsQuestioner(name)
          case Some(Answerer) => AsAnswerer(name)
          case None => EitherSide(name))
  }

  /** Without a role the listing is the union of the two role listings; status and community only
      ever narrow it. */
  lemma RoleFilters(opts: ChatOptions, name: string, c: Chat)
    ensures Matches(QueryFor(opts.(role := None), name), c) <==>
            Matches(QueryFor(opts.(role := Some(Questioner)), name), c) ||
            Matches(QueryFor(opts.(role := Some(Answerer)), name), c)
    ensures Matches(QueryFor(opts, name), c) ==> Matches(QueryFor(opts.(status := None), name), c)
    ensures Matches(QueryFor(opts, name), c) ==> Matches(QueryFor(opts.(community := None), name), c)
    ensures Matches(QueryFor(opts, name), c) ==> c.questionUsername == name || c.answerUsername == name
  {
  }

  /** One row of a listing, projected for the caller. */
  datatype ChatSummary = ChatSummary(
    id: Id,
    content: string,
    community: string,
    tags: seq<string>,
    status: Status,
    createdAt: nat,
    updatedAt: nat,
    role: Role,
    partnerUsername: string,
    messageCount: nat)

  /** The row of chat `c` for the caller `name`. */
  function Summarize(id: Id, c: Chat, name: string): (s: ChatSummary)
    ensures s.role == Questioner <==> c.questionUsername == name
    ensures s.partnerUsername == (if c.questionUsername == name then c.answerUsername else c.questionUsername)
    ensures s.messageCount == 0
    ensures s.id == id && s.content == c.content && s.community == c.community && s.tags == c.tags
    ensures s.status == c.status && s.createdAt == c.createdAt && s.updatedAt == c.updatedAt
  {
    var isQuestioner := c.questionUsername == name;
    ChatSummary(id, c.content, c.community, c.tags, c.status, c.createdAt, c.updatedAt,
                if isQuestioner then Questioner else Answerer,
                if isQuestioner then c.answerUsername else c.questionUsername, 0)
  }

  /** A chat the caller holds with themself is reported as asked by them, even in the listing of
      the chats they answer. */
  lemma SelfChatRole(opts: ChatOptions, name: string, id: Id, c: Chat)
    requires opts.role == Some(Answerer) && c.questionUsername == name && c.answerUsername == name
    requires Matches(QueryFor(opts, name), c)
    ensures Summarize(id, c, name).role == Questioner
    ensures Summarize(id, c, name).partnerUsername == name
  {
  }

  /** `getChatsByConditions`: the caller's chats matching the options, at most 100, most recently
      updated first, each projected for the caller. */
  method GetChatsByConditions(db: Db, caller: Caller, opts: ChatOptions) returns (r: Result<seq<ChatSummary>>)
    ensures ResolveCaller(db.users, caller).Err? ==> r == Err(ResolveCaller(db.users, caller).error)
    ensures ResolveCaller(db.users, caller).Ok? ==>
      var name := ResolveCaller(db.users, caller).value;
      var q := QueryFor(opts, name);
      && r.Ok?
      && |r.value| == Min(ListingLimit, |Matching(db.chats, c => Matches(q, c))|)
      && (forall i :: 0 <= i < |r.value| ==>
            r.value[i].id in db.chats && Matches(q, db.chats[r.value[i].id])
            && r.value[i] == Summarize(r.value[i].id, db.chats[r.value[i].id], name))
      && (forall i, j :: 0 <= i < j < |r.value| ==> r.value[i].id != r.value[j].id)
      && (forall i, j :: 0 <= i < j < |r.value| ==> r.value[i].updatedAt >= r.value[j].updatedAt)
      && (forall id :: id in Matching(db.chats, c => Matches(q, c)) && (forall i :: 0 <= i < |r.value| ==> r.value[i].id != id) ==>
            forall i :: 0 <= i < |r.value| ==> db.chats[id].updatedAt <= r.value[i].updatedAt)
  {
    var resolved := ResolveCaller(db.users, caller);
    if resolved.Err? {
      return Err(resolved.error);
    }
    var username := resolved.value;
    var query := Query(None, None, EitherSide(username));
    if opts.status.Some? {
      query := query.(status := opts.status);
    }
    if Truthy(opts.community) {
      query := query.(community := opts.community);
    }
    if opts.role == Some(Questioner) {
      query := query.(party := AsQuestioner(username));
    } else if opts.role == Some(Answerer) {
      query := query.(party := AsAnswerer(username));
    }
    assert query == QueryFor(opts, username);
    var found := FindRecent(db.chats, c => Matches(query, c), ListingLimit);
    var rows := seq(|found|, i requires 0 <= i < |found| => Summarize(found[i].id, found[i].record, username));
    assert forall i :: 0 <= i < |rows| ==> rows[i].id == found[i].id && rows[i].updatedAt == found[i].record.updatedAt;
    r := Ok(rows);
  }

  // ---------------------------------------------------------------- index mirroring of a chat update

  /** A partial index update (`update` with `doc`): the status change, or the new message list. */
  datatype ChatPatch = StatusPatch(status: Status, at: nat) | MessagesPatch(messages: seq<Message>, at: nat)

  function Patched(c: Chat, p: ChatPatch): Chat {
    match p
    case StatusPatch(status, at) => c.(status := status, updatedAt := at)
    case MessagesPatch(messages, at) => c.(messages := messages, updatedAt := at)
  }

  /** The index after mirroring the update of chat `id` to `full`: the partial update when the index
      is reachable and has the document, otherwise a full reindex when that succeeds, otherwise
      nothing (both failures are swallowed). */
  function Mirror(chatIndex: map<Id, Chat>, id: Id, p: ChatPatch, full: Chat, patchUp: bool, reindexUp: bool): (r: map<Id, Chat>)
    ensures forall k :: k in chatIndex && k != id ==> k in r && r[k] == chatIndex[k]
    ensures forall k :: k in r ==> k in chatIndex || k == id
  {
    if patchUp && id in chatIndex then chatIndex[id := Patched(chatIndex[id], p)]
    else if reindexUp then chatIndex[id := full]
    else chatIndex
  }

  /** When the index held the chat's previous state (or nothing for it), one successful attempt
      leaves it holding the new primary record; the partial and the full path agree. */
  lemma MirrorConverges(chatIndex: map<Id, Chat>, id: Id, before: Chat, p: ChatPatch, patchUp: bool, reindexUp: bool)
    requires id in chatIndex ==> chatIndex[id] == before
    requires (patchUp && id in chatIndex) || reindexUp
    ensures var r := Mirror(chatIndex, id, p, Patched(before, p), patchUp, reindexUp);
      id in r && r[id] == Patched(before, p)
  {
  }

  /** Mirroring keeps the index current. */
  lemma MirrorKeepsIndexCurrent(chats: map<Id, Chat>, chatIndex: map<Id, Chat>, id: Id, p: ChatPatch,
                                patchUp: bool, reindexUp: bool)
    requires IndexCurrent(chats, chatIndex) && id in chats
    requires (patchUp && id in chatIndex) || reindexUp
    ensures IndexCurrent(chats[id := Patched(chats[id], p)],
                         Mirror(chatIndex, id, p, Patched(chats[id], p), patchUp, reindexUp))
  {
  }

  // ---------------------------------------------------------------- updateChatStatus

  /** `updateChatStatus`: sets the status (and the update time) of an existing chat, to either value,
      so a completed chat can be reopened; the index is patched, or reindexed when the patch fails.
      The primary record is returned even when both index attempts fail. */
  method UpdateChatStatus(db: Db, chatId: Id, status: Status, now: nat, patchUp: bool, reindexUp: bool)
    returns (r: Result<Stored<Chat>>)
    requires db.Valid()
    modifies db`chats, db`chatIndex
    ensures db.Valid()
    ensures chatId !in old(db.chats) ==>
      r == Fail(ChatNotFound) && db.chats == old(db.chats) && db.chatIndex == old(db.chatIndex)
    ensures chatId in old(db.chats) ==>
      var updated := old(db.chats[chatId]).(status := status, updatedAt := now);
      && r == Ok(Stored(chatId, updated))
      && db.chats == old(db.chats)[chatId := updated]
      && db.chatIndex == Mirror(old(db.chatIndex), chatId, StatusPatch(status, now), updated, patchUp, reindexUp)
  {
    if chatId !in db.chats {
      return Fail(ChatNotFound);
    }
    var chat := db.chats[chatId].(status := status, updatedAt := now);
    db.chats := db.chats[chatId := chat];
    if patchUp && chatId in db.chatIndex {
      db.chatIndex := db.chatIndex[chatId := Patched(db.chatIndex[chatId], StatusPatch(status, now))];
    } else if reindexUp {
      db.chatIndex := db.chatIndex[chatId := chat];
    }
    r := Ok(Stored(chatId, chat));
  }

  // ---------------------------------------------------------------- addMessageToChat

  predicate IsParticipant(c: Chat, senderId: Id) {
    c.questionUserId == senderId || c.answerUserId == senderId
  }

  /** Why `addMessageToChat` refuses, checking in order: the chat exists, the sender exists, the
      sender is one of the two participants (by identity), the chat is not completed. */
  function AppendRefusal(chats: map<Id, Chat>, users: map<Id, User>, chatId: Id, senderUsername: string): (r: Option<string>)
    ensures r == Some(ChatNotFound) <==> chatId !in chats
    ensures r == Some(SenderNotFound) <==> chatId in chats && UserIdByName(users, senderUsername).None?
    ensures r == Some(NotParticipant) <==>
      chatId in chats && UserIdByName(users, senderUsername).Some?
      && !IsParticipant(chats[chatId], UserIdByName(users, senderUsername).value)
    ensures r == Some(ChatEnded) <==>
      chatId in chats && UserIdByName(users, senderUsername).Some?
      && IsParticipant(chats[chatId], UserIdByName(users, senderUsername).value)
      && chats[chatId].status == Completed
    ensures r.None? ==> chatId in chats && chats[chatId].status.Ongoing?
  {
    if chatId !in chats then Some(ChatNotFound)
    else match UserIdByName(users, senderUsername)
      case None => Some(SenderNotFound)
      case Some(senderId) =>
        if !IsParticipant(chats[chatId], senderId) then Some(NotParticipant)
        else if chats[chatId].status.Completed? then Some(ChatEnded)
        else None
  }

  /** Reopening a chat makes it accept its participants' messages again. */
  lemma ReopenedChatAcceptsMessages(chats: map<Id, Chat>, users: map<Id, User>, chatId: Id, senderUsername: string, now: nat)
    requires chatId in chats
    requires AppendRefusal(chats, users, chatId, senderUsername) == Some(ChatEnded)
    ensures AppendRefusal(chats[chatId := chats[chatId].(status := Ongoing, updatedAt := now)],
                          users, chatId, senderUsername).None?
  {
  }

  /** `addMessageToChat`: after the guards, appends one message from the sender, stamped now, and
      mirrors the new message list into the index (patch, then full reindex on failure). */
  method AddMessageToChat(db: Db, chatId: Id, senderUsername: string, content: string, now: nat,
                          patchUp: bool, reindexUp: bool) returns (r: Result<Stored<Chat>>)
    requires db.Valid()
    modifies db`chats, db`chatIndex
    ensures db.Valid()
    ensures AppendRefusal(old(db.chats), db.users, chatId, senderUsername).Some? ==>
      && r == Fail(AppendRefusal(old(db.chats), db.users, chatId, senderUsername).value)
      && db.chats == old(db.chats) && db.chatIndex == old(db.chatIndex)
    ensures AppendRefusal(old(db.chats), db.users, chatId, senderUsername).None? ==>
      var before := old(db.chats[chatId]);
      var m := Message(UserIdByName(db.users, senderUsername).value, senderUsername, content, now);
      var updated := before.(messages := before.messages + [m], updatedAt := now);
      && r == Ok(Stored(chatId, updated))
      && |updated.messages| == |before.messages| + 1
      && updated.messages[|before.messages|] == m
      && db.chats == old(db.chats)[chatId := updated]
      && db.chatIndex == Mirror(old(db.chatIndex), chatId, MessagesPatch(updated.messages, now), updated, patchUp, reindexUp)
  {
    var refusal := AppendRefusal(db.chats, db.users, chatId, senderUsername);
    if refusal.Some? {
      return Fail(refusal.value);
    }
    var senderId := UserIdByName(db.users, senderUsername).value;
    var message := Message(senderId, senderUsername, content, now);
    var chat := db.chats[chatId];
    chat := chat.(messages := chat.messages + [message], updatedAt := now);
    db.chats := db.chats[chatId := chat];
    var patch := MessagesPatch(chat.messages, chat.updatedAt);
    if patchUp && chatId in db.chatIndex {
      db.chatIndex := db.chatIndex[chatId := Patched(db.chatIndex[chatId], patch)];
    } else if reindexUp {
      db.chatIndex := db.chatIndex[chatId := chat];
    }
    r := Ok(Stored(chatId, chat));
  }

  // ---------------------------------------------------------------- evaluateUser

  datatype Rating = Excellent | Good | Average | Poor

  /** The answer that `evaluateUser` gives: a confirmation and the new counters. */
  datatype Evaluation = Evaluation(message: string, answerCount: nat, highQualityAnswerCount: nat, isExcellent: bool)

  /** The counters after one evaluation: one more answer, and one more high-quality answer exactly
      when the rating is excellent. */
  function Evaluated(u: User, rating: Rating): (e: User)
    ensures e.answerCount == u.answerCount + 1
    ensures e.highQualityAnswerCount == u.highQualityAnswerCount + (if rating == Excellent then 1 else 0)
    ensures e.(answerCount := u.answerCount, highQualityAnswerCount := u.highQualityAnswerCount) == u
  {
    u.(answerCount := u.answerCount + 1,
       highQualityAnswerCount := if rating == Excellent then u.highQualityAnswerCount + 1 else u.highQualityAnswerCount)
  }

  /** `evaluateUser`: bumps the counters of the named user in the primary store only; the index
      document keeps the old counters. */
  method EvaluateUser(db: Db, username: string, rating: Rating) returns (r: Result<Evaluation>)
    requires db.Valid()
    modifies db`users
    ensures db.Valid()
    ensures UserIdByName(old(db.users), username).None? ==>
      r == Fail(NoEvaluatedUser + username) && db.users == old(db.users)
    ensures UserIdByName(old(db.users), username).Some? ==>
      var id := UserIdByName(old(db.users), username).value;
      var e := Evaluated(old(db.users[id]), rating);
      && db.users == old(db.users)[id := e]
      && r == Ok(Evaluation("用户 " + username + " 的计数已更新", e.answerCount, e.highQualityAnswerCount, rating == Excellent))
  {
    var found := UserIdByName(db.users, username);
    if found.None? {
      return Fail(NoEvaluatedUser + username);
    }
    var id := found.value;
    var updated := Evaluated(db.users[id], rating);
    db.users := db.users[id := updated];
    r := Ok(Evaluation("用户 " + username + " 的计数已更新", updated.answerCount,
                       updated.highQualityAnswerCount, rating == Excellent));
  }
}
