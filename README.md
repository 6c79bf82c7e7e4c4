# WisdomLink backend core, modelled in Dafny

WisdomLink is a question-and-answer community backend. Users ask and answer questions in one-to-one
chats, publish threads (posts) to communities and earn a level from their high-quality answers.
Every entity lives in a primary document store with a search index mirroring it. Writes go to the
primary store first and are then copied to the index. An index failure is logged and never undoes
the primary write. Reads ask the index first and fall back to the primary store when the index
errors or finds nothing.

This project models that core:

- `common.dfy`, module `Common`: identities, `Option`, errors carrying the service's exact
  messages, and JavaScript truthiness of an optional string.
- `text.dfy`, module `Text`:
  - `String.prototype.trim`;
  - substring and case-insensitive search;
  - `parseInt(s, 10)`, with its NaN.
- `store.dfy`, module `Store`:
  - the records: `User`, `Chat`, `Message`, `Thread`;
  - the `Db` class holding the primary collections and their index mirrors as maps;
  - the store queries: lookup by username, natural-order scan, "most recently updated first,
    limit n" and random sampling.
- `user_service.dfy`, `chat_service.dfy`, `thread_service.dfy`: the three services. Each state
  change is a module-level method that takes the `Db` and has `modifies` on exactly the fields it
  writes. The
  specification functions these methods are proved against sit beside them.
- `live_session.dfy`, module `LiveSession`: the one-to-one socket route.
  - `SessionManager` is a class whose two map fields are the route's `userConnMap` and
    `chatActiveMap`.
  - Each handler is tied to a pure step function, and the lemmas about whole event sequences use
    those step functions.
- `http.dfy`, `chat_routes.dfy`, `thread_routes.dfy`: the five HTTP routes. Each is a guard chain
  (`Admit…`) and a handler method that calls the service once the guards pass. When the route
  maps the service's outcome to a status and code, that mapping is a `…Reply` function. The one
  route without such a mapping is `getRandomThreads`, which sends the service's rows as they are.

Every failure of the index is an explicit `bool` parameter of the operation:
- `indexUp` for a single index call;
- `patchUp` and `reindexUp` for a partial update followed by a full re-index on failure.

Every clock reading is a `now` parameter. Answers that the index computes by relevance or at random
are a parameter or a nondeterministic choice, constrained only by what the code relies on.

Two behaviours of the code that a reader might not expect are kept as written:
- `updateChatStatus` accepts `ongoing`, so a completed chat can be reopened
  (`ChatService.ReopenedChatAcceptsMessages`).
- The level of a fresh account is stored as 0 and reported as 1 by the index document
  (`UserService.NewAccount`).

## Model

| member | source | states |
|---|---|---|
| Text.TrimStart | src/services/userService.ts:118-120 | the result is the suffix after the leading whitespace, which is all whitespace, and does not begin with whitespace |
| Text.TrimEnd | src/services/userService.ts:118-120 | the result is the prefix before the trailing whitespace, which is all whitespace, and does not end with whitespace |
| Text.TrimSlice | src/services/userService.ts:118-120 | `trim` leaves a slice of the text with only whitespace before and after it |
| Text.TrimEnds | src/services/userService.ts:118-120 | what `trim` leaves neither begins nor ends with whitespace |
| Text.TrimBlank | src/services/userService.ts:118-120 | `trim` gives the empty string exactly for a text made only of whitespace |
| Text.TrimIdempotent | src/services/userService.ts:118-120 | trimming twice is trimming once, so a stored trimmed username trims to itself |
| Text.Contains | src/routes/chat/getChatsByStatus.ts:65-81 | `includes` holds exactly when the fragment occurs at some position |
| Text.AbsentFirstChar | src/routes/chat/getChatsByStatus.ts:65-81 | a text lacking the fragment's first character does not include it |
| Text.ParseIntOfNumeral | src/routes/thread/getRandomThreads.ts:8 | `parseInt` of the decimal numeral of n, followed by any non-digit text, is n |
| Text.ParseIntWithoutDigits | src/routes/thread/getRandomThreads.ts:8 | a text without any decimal digit parses to NaN |
| Text.DecimalRoundTrip | src/routes/thread/getRandomThreads.ts:8 | the value of the decimal numeral of n is n |
| Store.UserIdByName | src/services/userService.ts:14 | `findOne({username})` finds a stored user with that name, and finds nothing exactly when no user has it |
| Store.Scan | src/services/threadService.ts:213 | a filtered `find` lists each matching record once, in ascending identity order, and nothing else |
| Store.ScanEmpty | src/services/threadService.ts:195-213 | a filtered `find` is empty exactly when no record matches |
| Store.FindRecent | src/services/chatService.ts:329-333 | `find(q).sort({updatedAt: -1}).limit(n)` returns min(n, matches) distinct matching records, newest first, and no match it leaves out is newer than one it returns |
| Store.Sample | src/services/threadService.ts:353-355 | `$sample` returns min(n, size) distinct identities of the collection |
| Store.Db.NewId | src/services/threadService.ts:67-78 | a new document gets an identity used by no collection |
| UserService.CalculateUserLevel | src/services/userService.ts:101-109 | the level is 1, 2 or 3; it is 3 exactly from 10 high-quality answers and 1 exactly below 5 |
| UserService.LevelMonotone | src/services/userService.ts:101-109 | more high-quality answers never give a lower level |
| UserService.NewAccount | src/services/userService.ts:19-38 | a new account stores level 0 with zero counters; its index document reports level 1 = the computed level, and its first profile read rewrites the stored level |
| UserService.RegisterUser | src/services/userService.ts:12-45 | a taken username is refused with nothing written; otherwise the user is stored, and an index error is returned although the user stays stored |
| UserService.LoginUser | src/services/userService.ts:47-54 | "user does not exist" exactly when no user has the name; "wrong password" exactly when one has and the password does not match; otherwise that user |
| UserService.HealedIsStable | src/services/userService.ts:56-64 | the level rewrite sets the computed level, changes the user exactly when the stored level differs, and a second rewrite changes nothing |
| UserService.GetUserInfo | src/services/userService.ts:56-98 | an unknown id is refused; the profile always reports the computed level; the stored level is rewritten only when it differs; a failed index sync is swallowed |
| UserService.NonBlankTrimmed | src/services/userService.ts:118-120 | a username or avatar is taken exactly when it is not all whitespace, and then trimmed and non-empty |
| UserService.NonBlankTrimmedIdempotent | src/services/userService.ts:118-120 | taking a trimmed field a second time gives the same field |
| UserService.SelectUpdateIdempotent | src/services/userService.ts:116-121 | selecting the update fields from an already selected update changes nothing |
| UserService.ApplyUpdate | src/services/userService.ts:117-127 | the fields present in the update are written and every other field is unchanged |
| UserService.BuildUpdateData | src/services/userService.ts:116-121 | the step-by-step `updateData` equals the selected update |
| UserService.BuildIndexPatch | src/services/userService.ts:132-136 | the step-by-step `esUpdateData` equals the index patch of the update |
| UserService.IndexPatchIsTheUpdate | src/services/userService.ts:130-145 | the index patch carries exactly the changed keys with their stored values, and is empty exactly when the update is |
| UserService.UnclashedKeepsUnique | src/services/userService.ts:111-127 | an update whose username no other user holds keeps usernames unique |
| UserService.UpdateUserInfo | src/services/userService.ts:111-151 | an unknown id is refused; a username taken by another user fails as a duplicate key; otherwise the update is stored and the index is patched only with a non-empty patch |
| UserService.DeleteUserByUsername | src/services/userService.ts:153-162 | no matching user is refused; otherwise the user is removed from the store and, when the index answers, from the index; afterwards no user has that name |
| ChatService.FirstUnknownSender | src/services/chatService.ts:100-113 | the first message whose sender is no known username, with every earlier sender known; none exactly when every sender is known |
| ChatService.ResolveMessages | src/services/chatService.ts:100-113 | messages keep request order with senders resolved and a missing timestamp set to now; the request fails exactly when some sender is unknown, with the first unknown sender's error |
| ChatService.SavedChat | src/services/chatService.ts:78-139 | the order of refusals (missing fields, unknown questioner, unknown answerer, unknown sender); the defaults are empty content, no tags, status as given or else kept or else ongoing, and on update the original creation time kept; `updatedAt` is now, except that an update changing no field keeps the stored chat as it is (the schema's timestamps stamp only a new or modified document on `save()`) |
| ChatService.ResaveKeepsTheChat | src/services/chatService.ts:115-125 | re-saving the same fully timestamped request over its own result reproduces the chat exactly, `updatedAt` included |
| ChatService.SaveChat | src/services/chatService.ts:78-168 | the stored chat is the specified one, it is fresh or overwrites the named chat, and the index flag changes neither the result nor the primary write |
| ChatService.PutChat | src/services/chatService.ts:115-160 | the chat is written over the named chat or under a fresh identity, and into the index exactly when it is reachable; the store stays well formed |
| ChatService.GetChatById | src/services/chatService.ts:170-203 | the index document when the index has it, else the primary record; "not found" exactly when neither has it |
| ChatService.GetChatByIdReadsThePrimary | src/services/chatService.ts:170-203 | while the index is current, the read answers what the primary store holds, whether or not the index is reachable |
| ChatService.ResolveCaller | src/services/chatService.ts:215-239 | the caller's name is `username`, else `name`, else the name of the `userId` account; each failure has its own message; a resolved name is never empty |
| ChatService.RoleFilters | src/services/chatService.ts:304-324 | without a role the listing is the union of the two role listings; status and community only narrow it; every row involves the caller |
| ChatService.Summarize | src/services/chatService.ts:349-364 | role is questioner exactly when the caller asked; the partner is the other side; the message count is 0; the other fields are copied |
| ChatService.SelfChatRole | src/services/chatService.ts:349-361 | a chat with oneself is reported as asked, even in the answerer listing |
| ChatService.GetChatsByConditions | src/services/chatService.ts:207-364 | a caller without a name fails; else min(100, matches) distinct matching chats of the caller, newest first, each summarized for the caller, and no matching chat left out was updated later than a listed one |
| ChatService.Mirror | src/services/chatService.ts:450-481 | the partial-then-full index update touches only the chat's own document |
| ChatService.MirrorConverges | src/services/chatService.ts:450-481 | from an index holding the previous state, either successful path leaves the new primary record |
| ChatService.MirrorKeepsIndexCurrent | src/services/chatService.ts:450-481 | a current index stays current whenever one of the attempts succeeds |
| ChatService.UpdateChatStatus | src/services/chatService.ts:436-484 | a missing chat is refused with nothing written; otherwise only status and update time change, and the primary record is returned whatever the index does |
| ChatService.AppendRefusal | src/services/chatService.ts:488-512 | the refusals in their order (no chat, no sender, not a participant by identity, completed); none exactly when the chat is ongoing and the sender takes part |
| ChatService.ReopenedChatAcceptsMessages | src/services/chatService.ts:509-512 | after a status change to ongoing, a participant's message is accepted again |
| ChatService.AddMessageToChat | src/services/chatService.ts:487-566 | a refused message writes nothing; otherwise the message list grows by one, the new message last, and the index gets the new list |
| ChatService.Evaluated | src/services/chatService.ts:633-641 | one more answer; one more high-quality answer exactly when the rating is excellent; nothing else changes |
| ChatService.EvaluateUser | src/services/chatService.ts:620-659 | an unknown user is refused; otherwise the counters are bumped in the primary store only and reported |
| ThreadService.NewThreadDefaults | src/services/threadService.ts:67-76 | avatar given or else the author's, location empty, tags none, creation time given or else now |
| ThreadService.SaveThread | src/services/threadService.ts:52-120 | missing fields and an unknown author are refused with nothing written; otherwise the post is stored, its identity appended to the author's posts, and an index failure swallowed |
| ThreadService.PutThread | src/services/threadService.ts:67-108 | the post is stored under a fresh identity, that identity is appended to the author's posts, and the post goes into the index exactly when it is reachable |
| ThreadService.Pull | src/services/threadService.ts:161-163 | `$pull` removes every occurrence of the identity and keeps the rest with their multiplicities |
| ThreadService.PullUndoesPush | src/services/threadService.ts:161-163 | pulling an identity that was pushed once restores the earlier list |
| ThreadService.DeleteThreadById | src/services/threadService.ts:149-177 | a missing post is refused; otherwise the post goes, its identity leaves the owner's posts, and a failed index delete is swallowed |
| ThreadService.ApplyThreadUpdate | src/services/threadService.ts:384-395 | the fields of the update are written; author, avatar and creation time never change |
| ThreadService.SelectedUpdateKeepsEmptyFieldsOut | src/services/threadService.ts:384-388 | empty content or community never overwrites; an absent location changes nothing; a request that passes the guard yields a non-empty update |
| ThreadService.UpdateThread | src/services/threadService.ts:364-428 | the three refusals in order, all before any write; otherwise the selected fields are written and the index is updated when it answers |
| ThreadService.TermRead | src/services/threadService.ts:179-219 | the rows of an index-first term query all match and come from the index or from the primary store |
| ThreadService.TermReadEmpty | src/services/threadService.ts:195-213 | the read is empty exactly when neither the primary store nor the reachable index holds a match |
| ThreadService.TermReadFallback | src/services/threadService.ts:205-213 | with the index unreachable or holding no match, every matching post of the primary store is listed; only that path returns more than 1000 rows |
| ThreadService.TermReadAgreesWithPrimary | src/services/threadService.ts:179-219 | with the index equal to the primary store and at most 1000 matches, the read is the primary scan |
| ThreadService.StaleAfterFailedDelete | src/services/threadService.ts:166-174 | after a delete whose index call failed, the post is still listed by the index-first read |
| ThreadService.GetThreadsByCommunity | src/services/threadService.ts:179-219 | every row belongs to the community; the read is empty exactly when no reachable copy of a post does |
| ThreadService.GetThreadsByUsername | src/services/threadService.ts:272-312 | every row is by that author; the read is empty exactly when no reachable copy of a post is |
| ThreadService.ContainsIgnoringCaseOfContains | src/services/threadService.ts:258-263 | a verbatim occurrence is also a case-insensitive one |
| ThreadService.SearchThread | src/services/threadService.ts:222-270 | index hits when there are some, else the posts whose content or a tag contains the query case-insensitively |
| ThreadService.SearchFallbackFinds | src/services/threadService.ts:257-263 | without index hits, an empty query lists every post and a post containing the query verbatim is listed |
| ThreadService.GetRandomThreads | src/services/threadService.ts:314-362 | min(count, size) distinct posts from the index when it answers with some, else from the primary store |
| LiveSession.OnMessageStep | src/routes/chat/oneoneChat.ts:29-69 | an unparseable frame gets the format error; an end frame marks the chat ended and notifies the sender and a connected target; only a non-end frame is ever forwarded, to the registered target, as `{fromUserId, content, chatId}` |
| LiveSession.EndedChatRefuses | src/routes/chat/oneoneChat.ts:57-60 | a message naming an ended chat gets the refusal notice, to its sender only |
| LiveSession.ForwardedIffConnected | src/routes/chat/oneoneChat.ts:63-69 | otherwise a message is forwarded exactly when its target is registered, and an offline target is no error |
| LiveSession.EndWithoutChatIsForwarded | src/routes/chat/oneoneChat.ts:37-69 | `end` without a chat id is an ordinary message |
| LiveSession.EndedStaysEnded | src/routes/chat/oneoneChat.ts:37-60 | once ended, a chat stays ended through any sequence of events |
| LiveSession.NeverReactivated | src/routes/chat/oneoneChat.ts:38 | no event sets an entry of the chat map to active |
| LiveSession.CloseDropsNewerConnection | src/routes/chat/oneoneChat.ts:72-75 | closing an old connection unregisters the user even after a newer connection replaced it |
| LiveSession.SessionManager.Connect | src/routes/chat/oneoneChat.ts:19-24 | no user id: the socket is closed and the registry untouched; otherwise the connection replaces any earlier one |
| LiveSession.SessionManager.OnMessage | src/routes/chat/oneoneChat.ts:26-70 | the handler does the step; an end frame persists completed through the chat service, and its failure does not stop the map update or the notices |
| LiveSession.SessionManager.OnClose | src/routes/chat/oneoneChat.ts:72-75 | the user's registration goes and the chat map is unchanged |
| ThreadRoutes.AdmitUpdateThread | src/routes/thread/updateThread.ts:32-71 | the guards in order, first failure wins, all 400; an admitted request has id, username, some field, content of at most 5000 and at most 10 tags, and goes on unchanged |
| ThreadRoutes.UpdateThreadReply | src/routes/thread/updateThread.ts:73-109 | 404, 403 and 400 exactly for the three known service messages; anything else 500 `SERVER_ERROR` |
| ThreadRoutes.UpdateThread | src/routes/thread/updateThread.ts:17-111 | the route's 400 guards, then the service's refusals as 400 `NO_UPDATE_DATA`, 404 and 403 with nothing written; otherwise the selected fields are written, the index is updated when it answers and holds the post, and the reply is the updated post |
| ThreadRoutes.EmptyLocationSlipsPastTheRoute | src/routes/thread/updateThread.ts:47-52 | what the route refuses as empty the service would refuse too; only an empty location alone passes the route and is then refused by the service with the same 400 reply |
| ThreadRoutes.AdmitCountAsWritten | src/routes/thread/getRandomThreads.ts:8-12 | the range check as written refuses exactly the parsed numbers outside 1..50 and passes NaN on |
| ThreadRoutes.AsWrittenAdmitsNaN | src/routes/thread/getRandomThreads.ts:8-12 | a count of "abc" reaches the service as NaN |
| ThreadRoutes.AdmitCount | src/routes/thread/getRandomThreads.ts:8-14 | only a parsed count in 1..50 reaches the service, unchanged |
| ThreadRoutes.AdmitCountDiffersOnlyOnNaN | src/routes/thread/getRandomThreads.ts:8-12 | the corrected check agrees with the written one on every number and differs on NaN alone |
| ThreadRoutes.CountsPassedUnchanged | src/routes/thread/getRandomThreads.ts:8-14 | no count or an empty one is 5; the numeral of n in 1..50 is passed on as n; 0 and above 50 are refused |
| ThreadRoutes.GetRandomThreads | src/routes/thread/getRandomThreads.ts:5-20 | uses the corrected gate `ThreadRoutes.AdmitCount` rather than the check as written, so a count without digits is refused; a refused count gets 400; otherwise the service's rows, at most 50, are the reply |
| ChatRoutes.StatusNamesRoundTrip | src/routes/chat/updateChatStatus.ts:19-24 | exactly `ongoing` and `completed` are accepted, each naming its state |
| ChatRoutes.RoleNamesRoundTrip | src/routes/chat/getChatsByStatus.ts:28-33 | exactly `questioner` and `answerer` are accepted, each naming its role |
| ChatRoutes.SenderOf | src/routes/chat/addMessage.ts:15 | the sender is the body's name, else the token's username, else its name; never empty |
| ChatRoutes.BodySenderWins | src/routes/chat/addMessage.ts:15 | a name in the body overrides the token's, whoever the token belongs to |
| ChatRoutes.AdmitAddMessage | src/routes/chat/addMessage.ts:17-33 | a missing chat id or content is 400 before the sender is checked; no sender is 401; otherwise the call goes on |
| ChatRoutes.AddMessageReply | src/routes/chat/addMessage.ts:35-67 | success reports the message count and the last message; 404 exactly for a missing chat; 403 exactly for a stranger or an ended chat; else 500 |
| ChatRoutes.AppendRefusalStatus | src/routes/chat/addMessage.ts:47-67 | an unregistered sender falls through to 500 |
| ChatRoutes.AddMessage | src/routes/chat/addMessage.ts:11-69 | a refused request, by the guards or by the service, writes nothing; an accepted message is appended to the stored chat, reported as the last of a list one longer, and mirrored into the index |
| ChatRoutes.AdmitListing | src/routes/chat/getChatsByStatus.ts:13-36 | 401 without a user, then 400 for a bad status, then for a bad role; the service gets the parsed status and role and never a community |
| ChatRoutes.FilterName | src/routes/chat/getChatsByStatus.ts:43-44 | an absent filter is reported as `all` |
| ChatRoutes.ListingFailure | src/routes/chat/getChatsByStatus.ts:65-98 | 503 exactly for a message naming Elasticsearch, MongoDB or Database or the code `ECONNREFUSED`; the first class that matches, in that order, fixes the code (`ELASTICSEARCH_ERROR`, `DATABASE_ERROR`, `CONNECTION_ERROR`) and its message; otherwise 500 |
| ChatRoutes.PlainMessageIsServerError | src/routes/chat/getChatsByStatus.ts:65-98 | a message without the letters E, M and D is classified 500 |
| ChatRoutes.CallerFailuresAreServerErrors | src/routes/chat/getChatsByStatus.ts:93-98 | the service's own failures reach the client as 500 with the service's message |
| ChatRoutes.ListingReply | src/routes/chat/getChatsByStatus.ts:38-50 | `total` is the number of rows; the filters and the user are echoed |
| ChatRoutes.GetChatsByStatus | src/routes/chat/getChatsByStatus.ts:5-100 | the guards; then 500 for a caller without a name; otherwise the rows are min(100, matches) distinct matching chats of the caller, summarized for the caller, newest first, with none left out updated later; `total` is their number, and the filters and the user are echoed |
| ChatRoutes.AdmitStatusChange | src/routes/chat/updateChatStatus.ts:12-26 | 400 without a chat id, then 400 for a status that is not one of the two names; otherwise the status goes on unchanged |
| ChatRoutes.EitherStatusIsPassedOn | src/routes/chat/updateChatStatus.ts:19-26 | both `ongoing` and `completed` reach the service |
| ChatRoutes.StatusChangeReply | src/routes/chat/updateChatStatus.ts:28-48 | success carries the record; 404 exactly for a missing chat; else 500 |
| ChatRoutes.UpdateChatStatus | src/routes/chat/updateChatStatus.ts:5-50 | a refused request writes nothing; a missing chat is 404 with nothing written; otherwise only the chat's status and update time change, the reply is that updated primary record, and the index is mirrored |

## Left out

- Elasticsearch and MongoDB clients, index creation and the `chatId_1` index fix: the stores are maps and each index call's failure is a `bool` parameter.
- Relevance and randomness of index answers: `searchThread`'s index hits are a parameter constrained to at most 10 stored posts. `random_score` and `$sample` are a nondeterministic choice of the right size.
- Which 1000 of more term hits the index returns is not fixed by the code; the model takes the first 1000 in identity order, and the order of index hits is not modelled.
- Regular-expression metacharacters in a search query: the query is matched literally.
- Case folding beyond ASCII letters.
- Lengths are counted in characters, not UTF-16 code units.
- Mongoose schema validation and casting:
  - required `gender` and `birthday`;
  - the enum check on status;
  - username trimming by the schema;
  - a malformed id's `CastError`;
  - JSON `null` in request fields.
- The user schema does not declare `posts` or the counters. The model stores them as the services write them.
- `populate`/`lean` expansion, `_id`/`__v` stripping and the `user` back-reference in fallback rows: rows are `(id, record)` pairs.
- The diagnostic queries and logging of `getChatsByConditions`.
- Failures of the primary store itself, for example `数据库查询失败: …`, the unreachable `更新对话失败`, `帖子删除失败` and `帖子更新失败…` checks, and a second `用户不存在` after a successful lookup.
- Concurrency:
  - `Promise.all` in `saveChat` is sequential, and the failing sender reported is the first one in request order;
  - socket events are atomic steps, so no other event can change the registry while an end frame waits for the status write.
- ChatService.SaveChat: an existing chat is overwritten as a whole with the chat `SavedChat` specifies. This record has the same fields as the code's field-by-field assignment, which is not modelled step by step. Mongoose's per-path modification tracking is modelled as one test: `updatedAt` moves exactly when some other field of the record differs from the stored one (`ChatService.Unmodified`).
- Clock: one `now` per operation. A falsy `createdAt` or `timestamp` is an absent one.
- A request whose `messages` is absent would throw a `TypeError` in `saveChat`; the model takes a list.
- bcrypt: hashing is outside the model and comparison is the `passwordMatches` parameter of `UserService.LoginUser`.
- `UserService.RegisterUser`: the index error's message is a parameter. The unique-key error of `UserService.UpdateUserInfo` has a fixed message.
- Not modelled, being outside the core: `getChatStatsForUser`, `getThreadByContent`, `searchUser`, `getChatsByCommunity`, `getChatWithUserDetails`, the legacy and pass-through routes, the AI chat route and cloud upload.
- The `details` field of `getChatsByStatus` errors and the NODE_ENV-dependent stack trace.
- ThreadRoutes.GetRandomThreads: the 500 path is not modelled, because the modelled service has no failure. The handler uses the corrected gate `AdmitCount` from the Findings table, so it refuses `?count=abc`, which the code as written passes on as NaN.
- JSON parsing: a frame is either unparseable or an object with optional fields. A parsed non-object (for example `null`) is not modelled.

## Findings

| source | as written | input that shows it | evidently intended | confidence | as-written member | corrected member |
|---|---|---|---|---|---|---|
| src/routes/thread/getRandomThreads.ts:8-12 | `threadCount <= 0 \|\| threadCount > 50` is false for NaN, so a count without digits passes the 1..50 check | `?count=abc` reaches the service as NaN | refuse any count that is not a number in 1..50 with the 400 reply | high (not executed) | ThreadRoutes.AsWrittenAdmitsNaN | ThreadRoutes.AdmitCount |
