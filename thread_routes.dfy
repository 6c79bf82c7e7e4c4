/** The thread routes: `PUT /updateThread/:threadId` and `GET /getRandomThreads`. Each is a chain of
    guards in front of one service call and a mapping of the service's outcome to a reply. */
module ThreadRoutes {
  import opened Common
  import opened Http
  import opened Store
  import opened Text
  import opened ThreadService

  // ---------------------------------------------------------------- updateThread

  const MaxContentLength := 5000
  const MaxTags := 10

  /** The path parameter and the body of an update request; `None` is an absent field (a missing
      or empty thread id is `None`). */
  datatype UpdateThreadRequest = UpdateThreadRequest(
    threadId: Option<Id>,
    username: Option<string>,
    content: Option<string>,
    community: Option<string>,
    location: Option<string>,
    tags: Option<seq<string>>)

  /** The arguments the route hands to the service. */
  datatype UpdateCall = UpdateCall(threadId: Id, data: ThreadFields, username: string)

  /** The body fields, passed to the service as given (`{content, community, location, tags}`). */
  function FieldsOf(req: UpdateThreadRequest): ThreadFields {
    ThreadFields(req.content, req.community, req.location, req.tags)
  }

  /** The route's own emptiness test: content, community and tags falsy, location undefined. */
  predicate RouteSeesNothing(req: UpdateThreadRequest) {
    !Truthy(req.content) && !Truthy(req.community) && req.location.None? && req.tags.None?
  }

  /** The guard chain, in source order; the first failing check decides the refusal. */
  function AdmitUpdateThread(req: UpdateThreadRequest): (g: Gate<UpdateCall>)
    ensures req.threadId.None? ==> g == Halt(400, "MISSING_THREAD_ID", "缺少 threadId 参数")
    ensures req.threadId.Some? && !Truthy(req.username) ==> g == Halt(400, "MISSING_USERNAME", "缺少用户名")
    ensures req.threadId.Some? && Truthy(req.username) && RouteSeesNothing(req) ==>
      g == Halt(400, "NO_UPDATE_DATA", NoUpdateFields)
    ensures req.threadId.Some? && Truthy(req.username) && !RouteSeesNothing(req) &&
            req.content.Some? && |req.content.value| > MaxContentLength ==>
      g == Halt(400, "INVALID_CONTENT_LENGTH", "帖子内容长度应在1-5000字符之间")
    ensures req.threadId.Some? && Truthy(req.username) && !RouteSeesNothing(req) &&
            (req.content.Some? ==> |req.content.value| <= MaxContentLength) &&
            req.tags.Some? && |req.tags.value| > MaxTags ==>
      g == Halt(400, "TOO_MANY_TAGS", "标签数量不能超过10个")
    ensures g.Stop? ==> g.refusal.status == 400
    ensures g.Proceed? <==>
      && req.threadId.Some? && Truthy(req.username) && !RouteSeesNothing(req)
      && (req.content.Some? ==> |req.content.value| <= MaxContentLength)
      && (req.tags.Some? ==> |req.tags.value| <= MaxTags)
    ensures g.Proceed? ==> g.args == UpdateCall(req.threadId.value, FieldsOf(req), req.username.value)
  {
    if req.threadId.None? then
      Halt(400, "MISSING_THREAD_ID", "缺少 threadId 参数")
    else if !Truthy(req.username) then
      Halt(400, "MISSING_USERNAME", "缺少用户名")
    else if RouteSeesNothing(req) then
      Halt(400, "NO_UPDATE_DATA", NoUpdateFields)
    else if Truthy(req.content) && (|req.content.value| < 1 || |req.content.value| > MaxContentLength) then
      Halt(400, "INVALID_CONTENT_LENGTH", "帖子内容长度应在1-5000字符之间")
    else if req.tags.Some? && |req.tags.value| > MaxTags then
      Halt(400, "TOO_MANY_TAGS", "标签数量不能超过10个")
    else
      Proceed(UpdateCall(req.threadId.value, FieldsOf(req), req.username.value))
  }

  /** The service's outcome as a reply: its three known refusals by exact message, anything else 500. */
  function UpdateThreadReply(r: Result<Stored<Thread>>): (reply: Reply<Stored<Thread>>)
    ensures r.Ok? <==> reply.Success?
    ensures r.Ok? ==> reply.body == r.value
    ensures r.Err? ==> (reply.refusal.status == 404 <==> r.error.message == ThreadNotFound)
    ensures r.Err? ==> (reply.refusal.status == 403 <==> r.error.message == NotAuthor)
    ensures r.Err? ==> (reply.refusal.status == 400 <==> r.error.message == NoUpdateFields)
    ensures r.Err? && r.error.message !in {ThreadNotFound, NotAuthor, NoUpdateFields} ==>
      reply == Refuse(500, "SERVER_ERROR", MessageOr(r.error, "服务器错误"))
    ensures reply.Refused? && reply.refusal.status != 500 ==> reply.refusal.message == r.error.message
  {
    match r
    case Ok(t) => Success(t)
    case Err(e) =>
      if e.message == ThreadNotFound then Refuse(404, "THREAD_NOT_FOUND", e.message)
      else if e.message == NotAuthor then Refuse(403, "PERMISSION_DENIED", e.message)
      else if e.message == NoUpdateFields then Refuse(400, "NO_UPDATE_DATA", e.message)
      else Refuse(500, "SERVER_ERROR", MessageOr(e, "服务器错误"))
  }

  /** `PUT /updateThread/:threadId`: the guards, then the service's update, whose refusals become
      404, 403 and 400 replies; nothing is written unless the reply is a success. */
  method UpdateThread(db: Db, req: UpdateThreadRequest, indexUp: bool) returns (reply: Reply<Stored<Thread>>)
    requires db.Valid()
    modifies db`threads, db`threadIndex
    ensures db.Valid()
    ensures !reply.Success? ==> db.threads == old(db.threads) && db.threadIndex == old(db.threadIndex)
    ensures AdmitUpdateThread(req).Stop? ==> reply == Refused(AdmitUpdateThread(req).refusal)
    ensures AdmitUpdateThread(req).Proceed? ==>
      var call := AdmitUpdateThread(req).args;
      && (NothingToUpdate(call.data) ==> reply == Refuse(400, "NO_UPDATE_DATA", NoUpdateFields))
      && (!NothingToUpdate(call.data) && call.threadId !in old(db.threads) ==>
            reply == Refuse(404, "THREAD_NOT_FOUND", ThreadNotFound))
      && (!NothingToUpdate(call.data) && call.threadId in old(db.threads) &&
          old(db.threads[call.threadId]).username != call.username ==>
            reply == Refuse(403, "PERMISSION_DENIED", NotAuthor))
      && (!NothingToUpdate(call.data) && call.threadId in old(db.threads) &&
          old(db.threads[call.threadId]).username == call.username ==>
            var updated := ApplyThreadUpdate(old(db.threads[call.threadId]), SelectThreadUpdate(call.data));
            && reply == Success(Stored(call.threadId, updated))
            && db.threads == old(db.threads)[call.threadId := updated]
            && db.threadIndex == (if indexUp && call.threadId in old(db.threadIndex)
                                  then old(db.threadIndex)[call.threadId := updated] else old(db.threadIndex)))
  {
    var gate := AdmitUpdateThread(req);
    if gate.Stop? {
      return Refused(gate.refusal);
    }
    var call := gate.args;
    var r := ThreadService.UpdateThread(db, call.threadId, call.data, call.username, indexUp);
    reply := UpdateThreadReply(r);
  }

  /** The route's emptiness test is weaker than the service's: whatever the route refuses as empty,
      the service would refuse too, and the only requests that pass the route yet are empty for
      the service are those whose one given field is an empty location. Either way the client
      gets 400 `NO_UPDATE_DATA` with the same message. */
  lemma EmptyLocationSlipsPastTheRoute(req: UpdateThreadRequest)
    ensures RouteSeesNothing(req) ==> NothingToUpdate(FieldsOf(req))
    ensures !RouteSeesNothing(req) && NothingToUpdate(FieldsOf(req)) ==> req.location == Some("")
    ensures req.threadId.Some? && Truthy(req.username) && RouteSeesNothing(req) ==>
      Refused(AdmitUpdateThread(req).refusal) == UpdateThreadReply(Fail(NoUpdateFields))
  {
  }

  // ---------------------------------------------------------------- getRandomThreads

  const DefaultCount := 5
  const MaxCount := 50
  const BadCount := "数量参数无效，应在1-50之间"

  /** `count ? parseInt(count, 10) : 5`: an absent or empty query parameter means 5. */
  function RequestedCount(count: Option<string>): ParsedInt {
    if Truthy(count) then ParseInt(count.value) else Num(DefaultCount)
  }

  /** The range check as written: `threadCount <= 0 || threadCount > 50`. Both comparisons are
      false for NaN, so a count without digits reaches the service. */
  function AdmitCountAsWritten(count: Option<string>): (g: Gate<ParsedInt>)
    ensures g.Stop? <==> RequestedCount(count).Num? && !(1 <= RequestedCount(count).value <= MaxCount)
    ensures g.Proceed? ==> g.args == RequestedCount(count)
    ensures g.Stop? ==> g.refusal == Refusal(400, None, BadCount)
  {
    var n := RequestedCount(count);
    if n.Num? && (n.value <= 0 || n.value > MaxCount) then Stop(Refusal(400, None, BadCount)) else Proceed(n)
  }

  /** A count of "abc" passes the check as written and NaN is handed to the service. */
  lemma AsWrittenAdmitsNaN()
    ensures AdmitCountAsWritten(Some("abc")) == Proceed(NaN)
  {
    ParseIntWithoutDigits("abc");
  }

  /** The intended check: only a parsed count in 1..50 reaches the service. */
  function AdmitCount(count: Option<string>): (g: Gate<nat>)
    ensures g.Proceed? <==> RequestedCount(count).Num? && 1 <= RequestedCount(count).value <= MaxCount
    ensures g.Proceed? ==> g.args == RequestedCount(count).value && 1 <= g.args <= MaxCount
    ensures g.Stop? ==> g.refusal == Refusal(400, None, BadCount)
  {
    var n := RequestedCount(count);
    if n.Num? && 1 <= n.value <= MaxCount then Proceed(n.value) else Stop(Refusal(400, None, BadCount))
  }

  /** The corrected check differs from the one as written on NaN alone: both refuse the same
      numbers and hand the same number on. */
  lemma AdmitCountDiffersOnlyOnNaN(count: Option<string>)
    ensures RequestedCount(count).Num? ==>
      (AdmitCount(count).Proceed? <==> AdmitCountAsWritten(count).Proceed?)
    ensures AdmitCount(count).Proceed? ==> AdmitCountAsWritten(count) == Proceed(Num(AdmitCount(count).args))
    ensures RequestedCount(count).NaN? ==> AdmitCount(count).Stop? && AdmitCountAsWritten(count).Proceed?
  {
  }

  /** An absent or empty count is 5; the numeral of any n in 1..50 is passed on as n. */
  lemma CountsPassedUnchanged(n: nat)
    ensures AdmitCount(None) == Proceed(DefaultCount) && AdmitCount(Some("")) == Proceed(DefaultCount)
    ensures 1 <= n <= MaxCount ==> AdmitCount(Some(DecimalString(n))) == Proceed(n)
    ensures n == 0 || n > MaxCount ==> AdmitCount(Some(DecimalString(n))).Stop?
  {
    ParseIntOfNumeral(n, []);
    assert DecimalString(n) + [] == DecimalString(n);
  }

  /** `GET /getRandomThreads`: the checked count goes to the service unchanged and the service's
      rows come back as they are. */
  method GetRandomThreads(db: Db, count: Option<string>, indexUp: bool) returns (reply: Reply<seq<Stored<Thread>>>)
    ensures AdmitCount(count).Stop? ==> reply == Refused(AdmitCount(count).refusal)
    ensures AdmitCount(count).Proceed? ==>
      var n := AdmitCount(count).args;
      var source := if indexUp && |db.threadIndex| > 0 then db.threadIndex else db.threads;
      && reply.Success?
      && |reply.body| == Min(n, |source|) <= MaxCount
      && (forall i :: 0 <= i < |reply.body| ==>
            reply.body[i].id in source && reply.body[i].record == source[reply.body[i].id])
      && (forall i, j :: 0 <= i < j < |reply.body| ==> reply.body[i].id != reply.body[j].id)
  {
    var gate := AdmitCount(count);
    if gate.Stop? {
      return Refused(gate.refusal);
    }
    var rows := ThreadService.GetRandomThreads(db, gate.args, indexUp);
    reply := Success(rows);
  }
}
