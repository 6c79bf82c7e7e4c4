/** Posts: creation with defaults and the author's back-reference, the author-only partial update,
    deletion, and the index-first reads that fall back to the primary store. */
module ThreadService {
  import opened Common
  import opened Store
  import opened Text

  const MissingThreadFields := "帖子内容、用户名和社区不能为空"
  const NoSuchAuthor := "用户不存在"
  const ThreadNotFound := "帖子不存在"
  const NoUpdateFields := "至少需要提供一个要更新的字段"
  const NotAuthor := "无权限修改此帖子"

  /** The `size` of the term queries by community and by username. */
  const TermHitLimit := 1000
  /** The index's default `size` of a search. */
  const SearchHitLimit := 10

  /** Every document the index holds is the current primary record. */
  predicate ThreadIndexCurrent(threads: map<Id, Thread>, threadIndex: map<Id, Thread>) {
    forall id :: id in threadIndex ==> id in threads && threadIndex[id] == threads[id]
  }

  // ---------------------------------------------------------------- saveThread

  /** A `saveThread` request; `None` is an absent field (for `createdAt`, also a falsy one). */
  datatype ThreadInput = ThreadInput(
    content: Option<string>,
    username: Option<string>,
    community: Option<string>,
    location: Option<string>,
    tags: Option<seq<string>>,
    createdAt: Option<nat>,
    userAvatar: Option<string>)

  /** The post `saveThread` creates for author `userId`. */
  function NewThread(input: ThreadInput, userId: Id, author: User, now: nat): Thread
    requires Truthy(input.content) && Truthy(input.username) && Truthy(input.community)
  {
    Thread(input.content.value, userId, input.username.value,
           if Truthy(input.userAvatar) then input.userAvatar.value else author.avatar,
           input.community.value, input.location.GetOr(""), input.tags.GetOr([]), input.createdAt.GetOr(now))
  }

  /** The defaults of a new post: the avatar falls back to the author's (which may be empty), the
      location to empty, the tags to none, the creation time to now; given values are kept. */
  lemma NewThreadDefaults(input: ThreadInput, userId: Id, author: User, now: nat)
    requires Truthy(input.content) && Truthy(input.username) && Truthy(input.community)
    ensures var t := NewThread(input, userId, author, now);
      && t.userId == userId && t.username == input.username.value
      && t.content == input.content.value && t.community == input.community.value
      && t.userAvatar == (if Truthy(input.userAvatar) then input.userAvatar.value else author.avatar)
      && (input.location.None? ==> t.location == "") && (input.location.Some? ==> t.location == input.location.value)
      && (input.tags.None? ==> t.tags == []) && (input.tags.Some? ==> t.tags == input.tags.value)
      && (input.createdAt.None? ==> t.createdAt == now) && (input.createdAt.Some? ==> t.createdAt == input.createdAt.value)
  {
  }

  /** `saveThread`: checks the fields and the author before writing anything, creates the post,
      appends its identity to the author's `posts`, and indexes it (with the author's identity as
      `userId`) under its own identity; an index failure is swallowed. */
  method SaveThread(db: Db, input: ThreadInput, now: nat, indexUp: bool) returns (r: Result<Stored<Thread>>)
    requires db.Valid()
    modifies db`nextId, db`users, db`threads, db`threadIndex
    ensures db.Valid()
    ensures !Truthy(input.content) || !Truthy(input.username) || !Truthy(input.community) ==>
      && r == Fail(MissingThreadFields)
      && db.users == old(db.users) && db.threads == old(db.threads) && db.threadIndex == old(db.threadIndex)
    ensures Truthy(input.content) && Truthy(input.username) && Truthy(input.community) ==>
      match UserIdByName(old(db.users), input.username.value)
      case None =>
        r == Fail(NoSuchAuthor) && db.users == old(db.users) && db.threads == old(db.threads) && db.threadIndex == old(db.threadIndex)
      case Some(userId) =>
        var id := old(db.nextId);
        var author := old(db.users[userId]);
        var t := NewThread(input, userId, author, now);
        && r == Ok(Stored(id, t))
        && db.threads == old(db.threads)[id := t]
        && db.users == old(db.users)[userId := author.(posts := author.posts + [id])]
        && db.threadIndex == (if indexUp then old(db.threadIndex)[id := t] else old(db.threadIndex))
    ensures ThreadIndexCurrent(old(db.threads), old(db.threadIndex)) ==> ThreadIndexCurrent(db.threads, db.threadIndex)
  {
    if !Truthy(input.content) || !Truthy(input.username) || !Truthy(input.community) {
      return Fail(MissingThreadFields);
    }
    var found := UserIdByName(db.users, input.username.value);
    if found.None? {
      return Fail(NoSuchAuthor);
    }
    var userId := found.value;
    var t := NewThread(input, userId, db.users[userId], now);
    var id := PutThread(db, userId, t, indexUp);
    r := Ok(Stored(id, t));
  }

  /** The writes of `saveThread`: the post under a new identity, that identity appended to the
      author's `posts` (which changes no username), then the post into the index when reachable. */
  method PutThread(db: Db, userId: Id, t: Thread, indexUp: bool) returns (id: Id)
    requires db.Valid() && userId in db.users
    modifies db`nextId, db`users, db`threads, db`threadIndex
    ensures db.Valid()
    ensures id == old(db.nextId) && id !in old(db.threads)
    ensures db.threads == old(db.threads)[id := t]
    ensures db.users == old(db.users)[userId := old(db.users[userId]).(posts := old(db.users[userId]).posts + [id])]
    ensures db.threadIndex == (if indexUp then old(db.threadIndex)[id := t] else old(db.threadIndex))
  {
    var author := db.users[userId];
    id := db.NewId();
    db.threads := db.threads[id := t];
    db.users := db.users[userId := author.(posts := author.posts + [id])];
    if indexUp {
      db.threadIndex := db.threadIndex[id := t];
    }
  }

  // ---------------------------------------------------------------- deleteThreadById

  /** `$pull`: `s` without any occurrence of `x`, the rest in order. */
  function Pull(s: seq<Id>, x: Id): (r: seq<Id>)
    ensures x !in r
    ensures forall y :: y in r <==> y in s && y != x
    ensures multiset(r) == multiset(s)[x := 0]
  {
    if s == [] then
      []
    else
      var rest := Pull(s[1..], x);
      assert s == [s[0]] + s[1..];
      if s[0] == x then rest else [s[0]] + rest
  }

  /** Deleting a post undoes the back-reference its creation pushed. */
  lemma {:induction false} PullUndoesPush(s: seq<Id>, x: Id)
    requires x !in s
    ensures Pull(s + [x], x) == s
  {
    if s != [] {
      assert (s + [x])[1..] == s[1..] + [x];
      PullUndoesPush(s[1..], x);
    }
  }

  /** `deleteThreadById`: removes the post and pulls its identity from the owner's `posts`; the
      index delete's failure is swallowed, leaving a stale index document. */
  method DeleteThreadById(db: Db, threadId: Id, indexUp: bool) returns (r: Result<bool>)
    requires db.Valid()
    modifies db`threads, db`users, db`threadIndex
    ensures db.Valid()
    ensures threadId !in old(db.threads) ==>
      && r == Fail(ThreadNotFound)
      && db.threads == old(db.threads) && db.users == old(db.users) && db.threadIndex == old(db.threadIndex)
    ensures threadId in old(db.threads) ==>
      var owner := old(db.threads[threadId]).userId;
      && r == Ok(true)
      && db.threads == old(db.threads) - {threadId}
      && db.users == (if owner in old(db.users)
                      then old(db.users)[owner := old(db.users[owner]).(posts := Pull(old(db.users[owner]).posts, threadId))]
                      else old(db.users))
      && db.threadIndex == (if indexUp then old(db.threadIndex) - {threadId} else old(db.threadIndex))
    ensures indexUp && ThreadIndexCurrent(old(db.threads), old(db.threadIndex)) ==>
      ThreadIndexCurrent(db.threads, db.threadIndex)
  {
    if threadId !in db.threads {
      return Fail(ThreadNotFound);
    }
    var owner := db.threads[threadId].userId;
    db.threads := db.threads - {threadId};
    if owner in db.users {
      var u := db.users[owner];
      db.users := db.users[owner := u.(posts := Pull(u.posts, threadId))];
    }
    if indexUp {
      db.threadIndex := db.threadIndex - {threadId};
    }
    r := Ok(true);
  }

  // ---------------------------------------------------------------- updateThread

  /** The fields of an `updateThread` request, and of the update built from it; `None` is absent. */
  datatype ThreadFields = ThreadFields(
    content: Option<string>,
    community: Option<string>,
    location: Option<string>,
    tags: Option<seq<string>>)

  /** The service's guard: every field falsy (an empty location counts as falsy; any tag array,
      even an empty one, as given). */
  predicate NothingToUpdate(data: ThreadFields) {
    !Truthy(data.content) && !Truthy(data.community) && !Truthy(data.location) && data.tags.None?
  }

  /** The update built from a request (`updateObj`): content and community when non-empty, the
      location whenever it is given, even empty, the tags whenever given. */
  function SelectThreadUpdate(data: ThreadFields): ThreadFields {
    ThreadFields(if Truthy(data.content) then data.content else None,
                 if Truthy(data.community) then data.community else None,
                 data.location, data.tags)
  }

  /** A post with the fields of `p` written; author, avatar and creation time never change. */
  function ApplyThreadUpdate(t: Thread, p: ThreadFields): (r: Thread)
    ensures r.(content := t.content, community := t.community, location := t.location, tags := t.tags) == t
    ensures p.content.Some? ==> r.content == p.content.value
    ensures p.community.Some? ==> r.community == p.community.value
    ensures p.location.Some? ==> r.location == p.location.value
    ensures p.tags.Some? ==> r.tags == p.tags.value
    ensures p.content.None? ==> r.content == t.content
    ensures p.community.None? ==> r.community == t.community
  {
    t.(content := p.content.GetOr(t.content), community := p.community.GetOr(t.community),
       location := p.location.GetOr(t.location), tags := p.tags.GetOr(t.tags))
  }

  /** An empty content or community never overwrites the stored one, an absent field changes
      nothing, and a request the guard accepts always yields a non-empty update. */
  lemma SelectedUpdateKeepsEmptyFieldsOut(data: ThreadFields, t: Thread)
    ensures var u := ApplyThreadUpdate(t, SelectThreadUpdate(data));
      && (!Truthy(data.content) ==> u.content == t.content)
      && (!Truthy(data.community) ==> u.community == t.community)
      && (data.location.None? ==> u.location == t.location)
      && (data.tags.None? ==> u.tags == t.tags)
    ensures !NothingToUpdate(data) ==> SelectThreadUpdate(data) != ThreadFields(None, None, None, None)
  {
  }

  /** `updateThread`: checks, before writing anything, that there is something to update, that the
      post exists and that the requester wrote it; then writes the selected fields and replaces the
      index document with the updated post when the index is reachable and has it. */
  method UpdateThread(db: Db, threadId: Id, data: ThreadFields, requestUsername: string, indexUp: bool)
    returns (r: Result<Stored<Thread>>)
    requires db.Valid()
    modifies db`threads, db`threadIndex
    ensures db.Valid()
    ensures NothingToUpdate(data) ==>
      r == Fail(NoUpdateFields) && db.threads == old(db.threads) && db.threadIndex == old(db.threadIndex)
    ensures !NothingToUpdate(data) && threadId !in old(db.threads) ==>
      r == Fail(ThreadNotFound) && db.threads == old(db.threads) && db.threadIndex == old(db.threadIndex)
    ensures !NothingToUpdate(data) && threadId in old(db.threads) && old(db.threads[threadId]).username != requestUsername ==>
      r == Fail(NotAuthor) && db.threads == old(db.threads) && db.threadIndex == old(db.threadIndex)
    ensures !NothingToUpdate(data) && threadId in old(db.threads) && old(db.threads[threadId]).username == requestUsername ==>
      var updated := ApplyThreadUpdate(old(db.threads[threadId]), SelectThreadUpdate(data));
      && r == Ok(Stored(threadId, updated))
      && db.threads == old(db.threads)[threadId := updated]
      && db.threadIndex == (if indexUp && threadId in old(db.threadIndex)
                            then old(db.threadIndex)[threadId := updated] else old(db.threadIndex))
    ensures ThreadIndexCurrent(old(db.threads), old(db.threadIndex)) && (indexUp || threadId !in old(db.threadIndex)) ==>
      ThreadIndexCurrent(db.threads, db.threadIndex)
  {
    if NothingToUpdate(data) {
      return Fail(NoUpdateFields);
    }
    if threadId !in db.threads {
      return Fail(ThreadNotFound);
    }
    var t := db.threads[threadId];
    if t.username != requestUsername {
      return Fail(NotAuthor);
    }
    var updateObj := ThreadFields(None, None, None, None);
    if Truthy(data.content) {
      updateObj := updateObj.(content := data.content);
    }
    if Truthy(data.community) {
      updateObj := updateObj.(community := data.community);
    }
    if data.location.Some? {
      updateObj := updateObj.(location := data.location);
    }
    if data.tags.Some? {
      updateObj := updateObj.(tags := data.tags);
    }
    assert updateObj == SelectThreadUpdate(data);
    var updated := ApplyThreadUpdate(t, updateObj);
    db.threads := db.threads[threadId := updated];
    if indexUp && threadId in db.threadIndex {
      db.threadIndex := db.threadIndex[threadId := updated];
    }
    r := Ok(Stored(threadId, updated));
  }

  // ---------------------------------------------------------------- index-first reads

  /** The first `n` elements of `s` (all of them when there are fewer). */
  function Take<T>(s: seq<T>, n: nat): (r: seq<T>)
    ensures |r| == Min(n, |s|) && forall i :: 0 <= i < |r| ==> r[i] == s[i]
  {
    s[..Min(n, |s|)]
  }

  lemma TakeAll<T>(s: seq<T>, n: nat)
    requires |s| <= n
    ensures Take(s, n) == s
  {
  }

  /** An index-first term read (`term` query with `size: 1000`, falling back to `find`), for the
      posts satisfying `p`. Which 1000 of more hits the index returns is not fixed by the source;
      the model takes the first 1000 in identity order. */
  function TermRead(threads: map<Id, Thread>, threadIndex: map<Id, Thread>, p: Thread -> bool, indexUp: bool): (r: seq<Stored<Thread>>)
    ensures forall i :: 0 <= i < |r| ==> p(r[i].record)
    ensures forall i :: 0 <= i < |r| ==>
      || (indexUp && r[i].id in threadIndex && threadIndex[r[i].id] == r[i].record)
      || (r[i].id in threads && threads[r[i].id] == r[i].record)
  {
    var hits := Take(Scan(threadIndex, p), TermHitLimit);
    if indexUp && hits != [] then hits else Scan(threads, p)
  }

  /** The read comes back empty exactly when neither the primary store nor the reachable index
      holds a match. */
  lemma TermReadEmpty(threads: map<Id, Thread>, threadIndex: map<Id, Thread>, p: Thread -> bool, indexUp: bool)
    ensures TermRead(threads, threadIndex, p, indexUp) == [] <==>
      (forall id :: id in threads ==> !p(threads[id])) && (indexUp ==> forall id :: id in threadIndex ==> !p(threadIndex[id]))
  {
    var hits := Take(Scan(threadIndex, p), TermHitLimit);
    ScanEmpty(threadIndex, p);
    ScanEmpty(threads, p);
    if indexUp && hits != [] {
      assert Scan(threadIndex, p) != [];
      assert TermRead(threads, threadIndex, p, indexUp) == hits;
    } else {
      assert indexUp ==> Scan(threadIndex, p) == [];
      assert TermRead(threads, threadIndex, p, indexUp) == Scan(threads, p);
    }
  }

  /** When the index is unreachable or holds no match, the read returns every matching post of the
      primary store; only that path can return more than 1000 rows. */
  lemma TermReadFallback(threads: map<Id, Thread>, threadIndex: map<Id, Thread>, p: Thread -> bool, indexUp: bool)
    ensures var r := TermRead(threads, threadIndex, p, indexUp);
      && ((!indexUp || forall id :: id in threadIndex ==> !p(threadIndex[id])) ==>
            forall id :: id in threads && p(threads[id]) ==> Stored(id, threads[id]) in r)
      && (|r| <= TermHitLimit || r == Scan(threads, p))
  {
    ScanEmpty(threadIndex, p);
  }

  /** While the index holds every post, current, and at most 1000 match, the index-first read
      answers exactly what the primary store would, whether or not the index is reachable. */
  lemma TermReadAgreesWithPrimary(threads: map<Id, Thread>, threadIndex: map<Id, Thread>, p: Thread -> bool, indexUp: bool)
    requires threadIndex == threads
    requires |Scan(threads, p)| <= TermHitLimit
    ensures TermRead(threads, threadIndex, p, indexUp) == Scan(threads, p)
  {
  }

  /** A matching index document is listed whatever the primary store holds, so a post deleted
      while the index was unreachable is still listed (when at most 1000 documents match). */
  lemma StaleAfterFailedDelete(threads: map<Id, Thread>, threadIndex: map<Id, Thread>, id: Id, p: Thread -> bool)
    requires id in threadIndex && p(threadIndex[id])
    requires |Scan(threadIndex, p)| <= TermHitLimit
    ensures Stored(id, threadIndex[id]) in TermRead(threads - {id}, threadIndex, p, true)
  {
    var all := Scan(threadIndex, p);
    assert Stored(id, threadIndex[id]) in all;
    TakeAll(all, TermHitLimit);
    assert TermRead(threads - {id}, threadIndex, p, true) == all;
  }

  /** `getThreadsByCommunity`. */
  function GetThreadsByCommunity(threads: map<Id, Thread>, threadIndex: map<Id, Thread>, community: string, indexUp: bool)
    : (r: seq<Stored<Thread>>)
    ensures forall i :: 0 <= i < |r| ==> r[i].record.community == community
    ensures r == [] <==> (forall id :: id in threads ==> threads[id].community != community)
                         && (indexUp ==> forall id :: id in threadIndex ==> threadIndex[id].community != community)
  {
    TermReadEmpty(threads, threadIndex, (t: Thread) => t.community == community, indexUp);
    TermRead(threads, threadIndex, (t: Thread) => t.community == community, indexUp)
  }

  /** `getThreadsByUsername`: the same index-first term read as `getThreadsByCommunity` (`TermRead`),
      on the author's username. */
  function GetThreadsByUsername(threads: map<Id, Thread>, threadIndex: map<Id, Thread>, username: string, indexUp: bool)
    : (r: seq<Stored<Thread>>)
    ensures forall i :: 0 <= i < |r| ==> r[i].record.username == username
    ensures r == [] <==> (forall id :: id in threads ==> threads[id].username != username)
                         && (indexUp ==> forall id :: id in threadIndex ==> threadIndex[id].username != username)
  {
    TermReadEmpty(threads, threadIndex, (t: Thread) => t.username == username, indexUp);
    TermRead(threads, threadIndex, (t: Thread) => t.username == username, indexUp)
  }

  /** The fallback search: `q` in the content, or in any tag, ignoring case. */
  predicate SearchMatches(t: Thread, q: string) {
    ContainsIgnoringCase(t.content, q) || exists i :: 0 <= i < |t.tags| && ContainsIgnoringCase(t.tags[i], q)
  }

  lemma LowerOccurs(s: string, q: string, i: nat)
    requires OccursAt(s, q, i)
    ensures OccursAt(Lower(s), Lower(q), i)
  {
    assert Lower(s)[i..i + |q|] == Lower(q);
  }

  /** Ignoring case finds at least what an exact match finds. */
  lemma ContainsIgnoringCaseOfContains(s: string, q: string)
    requires Contains(s, q)
    ensures ContainsIgnoringCase(s, q)
  {
    var i: nat :| OccursAt(s, q, i);
    LowerOccurs(s, q, i);
  }

  /** `searchThread`. `answer` stands for the index's relevance search: `None` when it errors,
      otherwise the identities of the documents it returns (at most its default size). */
  function SearchThread(threads: map<Id, Thread>, threadIndex: map<Id, Thread>, q: string, answer: Option<seq<Id>>)
    : (r: seq<Stored<Thread>>)
    requires answer.Some? ==> |answer.value| <= SearchHitLimit && forall i :: 0 <= i < |answer.value| ==> answer.value[i] in threadIndex
    ensures answer.Some? && answer.value != [] ==>
      |r| == |answer.value| && forall i :: 0 <= i < |r| ==> r[i] == Stored(answer.value[i], threadIndex[answer.value[i]])
    ensures answer.None? || answer.value == [] ==>
      && (forall i :: 0 <= i < |r| ==> r[i].id in threads && r[i].record == threads[r[i].id] && SearchMatches(r[i].record, q))
      && (forall id :: id in threads && SearchMatches(threads[id], q) ==> Stored(id, threads[id]) in r)
  {
    if answer.Some? && answer.value != [] then
      var ids := answer.value;
      seq(|ids|, i requires 0 <= i < |ids| => Stored(ids[i], threadIndex[ids[i]]))
    else
      Scan(threads, (t: Thread) => SearchMatches(t, q))
  }

  /** When the index finds nothing, an empty query lists every post, and any post whose content
      contains the query verbatim is listed. */
  lemma SearchFallbackFinds(threads: map<Id, Thread>, threadIndex: map<Id, Thread>, q: string, id: Id)
    requires id in threads
    requires q == [] || Contains(threads[id].content, q)
    ensures Stored(id, threads[id]) in SearchThread(threads, threadIndex, q, None)
  {
    if q == [] {
      assert OccursAt(Lower(threads[id].content), Lower(q), 0);
    } else {
      ContainsIgnoringCaseOfContains(threads[id].content, q);
    }
  }

  /** `getRandomThreads`: `count` random index documents when the index returns any, otherwise
      `count` random posts of the primary store (all of them when there are fewer). */
  method GetRandomThreads(db: Db, count: nat, indexUp: bool) returns (r: seq<Stored<Thread>>)
    ensures indexUp && count > 0 && |db.threadIndex| > 0 ==>
      && |r| == Min(count, |db.threadIndex|)
      && forall i :: 0 <= i < |r| ==> r[i].id in db.threadIndex && r[i].record == db.threadIndex[r[i].id]
    ensures !(indexUp && count > 0 && |db.threadIndex| > 0) ==>
      && |r| == Min(count, |db.threads|)
      && forall i :: 0 <= i < |r| ==> r[i].id in db.threads && r[i].record == db.threads[r[i].id]
    ensures forall i, j :: 0 <= i < j < |r| ==> r[i].id != r[j].id
  {
    var threadIndex, threads := db.threadIndex, db.threads;
    if indexUp {
      var ids := Sample(threadIndex.Keys, count);
      if |ids| > 0 {
        return seq(|ids|, i requires 0 <= i < |ids| => Stored(ids[i], threadIndex[ids[i]]));
      }
    }
    var ids := Sample(threads.Keys, count);
    r := seq(|ids|, i requires 0 <= i < |ids| => Stored(ids[i], threads[ids[i]]));
  }
}
