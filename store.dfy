/** The data model and the two stores: the primary document store (authoritative, one map per
    collection) and the search index (a second map per collection, which may be unreachable). */
module Store {
  import opened Common

  datatype Status = Ongoing | Completed

  /** One message of a chat; `_id: false` in the schema, so a message has no identity of its own. */
  datatype Message = Message(senderId: Id, senderUsername: string, content: string, timestamp: nat)

  /** A one-to-one conversation between a questioner and an answerer. The search index stores
      the same fields (the primary record without `_id` and `__v`), keyed by the chat's id. */
  datatype Chat = Chat(
    questionUserId: Id,
    questionUsername: string,
    answerUserId: Id,
    answerUsername: string,
    content: string,
    community: string,
    tags: seq<string>,
    status: Status,
    messages: seq<Message>,
    createdAt: nat,
    updatedAt: nat)

  /** A post. `userId` is the owning user's reference (`user` in the primary store,
      `userId` in the index document, which has the same fields otherwise). */
  datatype Thread = Thread(
    content: string,
    userId: Id,
    username: string,
    userAvatar: string,
    community: string,
    location: string,
    tags: seq<string>,
    createdAt: nat)

  /** A user record of the primary store; `password` holds the credential hash. */
  datatype User = User(
    username: string,
    password: string,
    motto: string,
    taps: seq<string>,
    level: nat,
    avatar: string,
    questionCount: nat,
    answerCount: nat,
    highQualityAnswerCount: nat,
    questionChats: seq<Id>,
    answerChats: seq<Id>,
    posts: seq<Id>)

  /** The user document of the search index (and the profile `getUserInfo` returns):
      the user record without its credential. */
  datatype UserDoc = UserDoc(
    username: string,
    motto: string,
    avatar: string,
    taps: seq<string>,
    level: nat,
    questionCount: nat,
    answerCount: nat,
    highQualityAnswerCount: nat,
    questionChats: seq<Id>,
    answerChats: seq<Id>,
    posts: seq<Id>)

  /** A record together with the identity the store gave it: `{_id, ...doc}`. */
  datatype Stored<T> = Stored(id: Id, record: T)

  /** The unique index on `username` of the users collection. */
  predicate UniqueUsernames(users: map<Id, User>) {
    forall a, b :: a in users && b in users && users[a].username == users[b].username ==> a == b
  }

  class Db {
    var users: map<Id, User>
    var userIndex: map<Id, UserDoc>
    var chats: map<Id, Chat>
    var chatIndex: map<Id, Chat>
    var threads: map<Id, Thread>
    var threadIndex: map<Id, Thread>
    /** The next identity the primary store hands out; identities are never reused. */
    var nextId: Id

    ghost predicate Valid()
      reads this
    {
      && (forall id :: id in users ==> id < nextId)
      && (forall id :: id in chats ==> id < nextId)
      && (forall id :: id in threads ==> id < nextId)
      && UniqueUsernames(users)
    }

    constructor ()
      ensures Valid()
      ensures users == map[] && userIndex == map[] && chats == map[] && chatIndex == map[]
      ensures threads == map[] && threadIndex == map[] && nextId == 0
    {
      users, userIndex := map[], map[];
      chats, chatIndex := map[], map[];
      threads, threadIndex := map[], map[];
      nextId := 0;
    }

    /** The store's identity generator: an identity no collection uses. */
    method NewId() returns (id: Id)
      requires Valid()
      modifies this`nextId
      ensures Valid()
      ensures id == old(nextId) && nextId == id + 1
      ensures id !in users && id !in chats && id !in threads
    {
      id := nextId;
      nextId := nextId + 1;
    }
  }

  /** A set holding `x` has a least element: if `x` is not it, something smaller is there. */
  lemma {:induction false} LeastBelow(s: set<Id>, x: Id)
    requires x in s
    ensures exists m :: m in s && forall k :: k in s ==> m <= k
    decreases x
  {
    if exists k :: k in s && k < x {
      var k :| k in s && k < x;
      LeastBelow(s, k);
    }
  }

  function Least(s: set<Id>): (m: Id)
    requires s != {}
    ensures m in s && forall k :: k in s ==> m <= k
  {
    var x :| x in s;
    LeastBelow(s, x);
    var m :| m in s && forall k :: k in s ==> m <= k;
    m
  }

  /** The identities of `ks` in ascending order. */
  function AscendingIds(ks: set<Id>): (r: seq<Id>)
    ensures |r| == |ks|
    ensures forall i :: 0 <= i < |r| ==> r[i] in ks
    ensures forall k :: k in ks ==> k in r
    ensures forall i, j :: 0 <= i < j < |r| ==> r[i] < r[j]
    decreases |ks|
  {
    if ks == {} then
      []
    else
      var m := Least(ks);
      var rest := AscendingIds(ks - {m});
      AscendingStep(ks, m, rest);
      [m] + rest
  }

  lemma AscendingStep(ks: set<Id>, m: Id, rest: seq<Id>)
    requires m in ks && forall k :: k in ks ==> m <= k
    requires |rest| == |ks - {m}|
    requires forall i :: 0 <= i < |rest| ==> rest[i] in ks - {m}
    requires forall k :: k in ks - {m} ==> k in rest
    requires forall i, j :: 0 <= i < j < |rest| ==> rest[i] < rest[j]
    ensures |[m] + rest| == |ks|
    ensures forall i :: 0 <= i < |[m] + rest| ==> ([m] + rest)[i] in ks
    ensures forall k :: k in ks ==> k in [m] + rest
    ensures forall i, j :: 0 <= i < j < |[m] + rest| ==> ([m] + rest)[i] < ([m] + rest)[j]
  {
    var r := [m] + rest;
    forall i | 0 <= i < |r| ensures r[i] in ks {
      if i > 0 { assert r[i] == rest[i - 1]; }
    }
    forall k | k in ks ensures k in r {
      if k != m {
        assert k in ks - {m};
        var i :| 0 <= i < |rest| && rest[i] == k;
        assert r[i + 1] == k;
      }
    }
    forall i, j | 0 <= i < j < |r| ensures r[i] < r[j] {
      assert r[j] == rest[j - 1] && r[j] in ks - {m};
      if i > 0 { assert r[i] == rest[i - 1]; }
    }
  }

  /** `findOne({username})`: the user with that username. Under the unique index there is at most
      one; without it the model takes the least identity, so the lookup is a function. */
  function UserIdByName(users: map<Id, User>, name: string): (r: Option<Id>)
    ensures r.Some? ==> r.value in users && users[r.value].username == name
    ensures r.None? <==> forall id :: id in users ==> users[id].username != name
    decreases users.Keys
  {
    if users == map[] then
      None
    else
      var m := Least(users.Keys);
      if users[m].username == name then
        Some(m)
      else
        var rest := users - {m};
        assert rest.Keys == users.Keys - {m};
        assert forall id :: id in users ==> id == m || (id in rest && rest[id] == users[id]);
        UserIdByName(rest, name)
  }

  /** Every entry of `r` is an entry of `m` listed in `ids` whose value satisfies `p`. */
  ghost predicate PickedFrom<V>(m: map<Id, V>, ids: seq<Id>, p: V -> bool, r: seq<Stored<V>>) {
    forall i :: 0 <= i < |r| ==> r[i].id in ids && r[i].id in m && r[i].record == m[r[i].id] && p(r[i].record)
  }

  /** Every entry of `m` listed in `ids` whose value satisfies `p` is in `r`. */
  ghost predicate PickedAll<V>(m: map<Id, V>, ids: seq<Id>, p: V -> bool, r: seq<Stored<V>>)
    requires forall i :: 0 <= i < |ids| ==> ids[i] in m
  {
    forall i :: 0 <= i < |ids| && p(m[ids[i]]) ==> Stored(ids[i], m[ids[i]]) in r
  }

  ghost predicate AscendingById<V>(r: seq<Stored<V>>) {
    forall i, j :: 0 <= i < j < |r| ==> r[i].id < r[j].id
  }

  /** The entries of `m` whose identities are listed in `ids` and whose value satisfies `p`,
      in the order of `ids`. */
  function Pick<V>(m: map<Id, V>, ids: seq<Id>, p: V -> bool): (r: seq<Stored<V>>)
    requires forall i :: 0 <= i < |ids| ==> ids[i] in m
    requires forall i, j :: 0 <= i < j < |ids| ==> ids[i] < ids[j]
    ensures PickedFrom(m, ids, p, r) && PickedAll(m, ids, p, r) && AscendingById(r)
  {
    if ids == [] then
      []
    else
      var rest := Pick(m, ids[1..], p);
      var r := if p(m[ids[0]]) then [Stored(ids[0], m[ids[0]])] + rest else rest;
      PickFromStep(m, ids, p, rest, r);
      PickAllStep(m, ids, p, rest, r);
      PickAscendingStep(m, ids, p, rest, r);
      r
  }

  lemma PickFromStep<V>(m: map<Id, V>, ids: seq<Id>, p: V -> bool, rest: seq<Stored<V>>, r: seq<Stored<V>>)
    requires ids != [] && ids[0] in m && PickedFrom(m, ids[1..], p, rest)
    requires r == if p(m[ids[0]]) then [Stored(ids[0], m[ids[0]])] + rest else rest
    ensures PickedFrom(m, ids, p, r)
  {
    forall i | 0 <= i < |rest| ensures rest[i].id in ids {
      var j :| 0 <= j < |ids[1..]| && ids[1..][j] == rest[i].id;
      assert ids[j + 1] == rest[i].id;
    }
  }

  lemma PickAllStep<V>(m: map<Id, V>, ids: seq<Id>, p: V -> bool, rest: seq<Stored<V>>, r: seq<Stored<V>>)
    requires ids != [] && forall i :: 0 <= i < |ids| ==> ids[i] in m
    requires PickedAll(m, ids[1..], p, rest)
    requires r == if p(m[ids[0]]) then [Stored(ids[0], m[ids[0]])] + rest else rest
    ensures PickedAll(m, ids, p, r)
  {
    forall i | 0 <= i < |ids| && p(m[ids[i]]) ensures Stored(ids[i], m[ids[i]]) in r {
      if i > 0 {
        assert ids[1..][i - 1] == ids[i];
      }
    }
  }

  lemma PickAscendingStep<V>(m: map<Id, V>, ids: seq<Id>, p: V -> bool, rest: seq<Stored<V>>, r: seq<Stored<V>>)
    requires ids != [] && ids[0] in m && forall i, j :: 0 <= i < j < |ids| ==> ids[i] < ids[j]
    requires PickedFrom(m, ids[1..], p, rest) && AscendingById(rest)
    requires r == if p(m[ids[0]]) then [Stored(ids[0], m[ids[0]])] + rest else rest
    ensures AscendingById(r)
  {
    forall i | 0 <= i < |rest| ensures ids[0] < rest[i].id {
      var j :| 0 <= j < |ids[1..]| && ids[1..][j] == rest[i].id;
      assert ids[j + 1] == rest[i].id;
    }
  }

  /** What an unsorted `find(p)` returns: every matching record, in natural order, which for the
      store's increasing identities is ascending identity order. */
  function Scan<V>(m: map<Id, V>, p: V -> bool): (r: seq<Stored<V>>)
    ensures forall i :: 0 <= i < |r| ==> r[i].id in m && r[i].record == m[r[i].id] && p(r[i].record)
    ensures forall id :: id in m && p(m[id]) ==> Stored(id, m[id]) in r
    ensures forall i, j :: 0 <= i < j < |r| ==> r[i].id < r[j].id
  {
    var ids := AscendingIds(m.Keys);
    var r := Pick(m, ids, p);
    assert forall id :: id in m && p(m[id]) ==> Stored(id, m[id]) in r by {
      forall id | id in m && p(m[id]) ensures Stored(id, m[id]) in r {
        var i :| 0 <= i < |ids| && ids[i] == id;
      }
    }
    r
  }

  /** A scan is empty exactly when nothing matches. */
  lemma ScanEmpty<V>(m: map<Id, V>, p: V -> bool)
    ensures Scan(m, p) == [] <==> forall id :: id in m ==> !p(m[id])
  {
    if Scan(m, p) != [] {
      var x := Scan(m, p)[0];
      assert x.id in m && p(m[x.id]);
    }
    if exists id :: id in m && p(m[id]) {
      var id :| id in m && p(m[id]);
      assert Stored(id, m[id]) in Scan(m, p);
    }
  }

  /** The identities of the chats that satisfy `p`. */
  function Matching(chats: map<Id, Chat>, p: Chat -> bool): set<Id> {
    set id | id in chats && p(chats[id])
  }

  lemma {:induction false} LatestExists(chats: map<Id, Chat>, s: set<Id>)
    requires s != {} && s <= chats.Keys
    ensures exists m :: m in s && forall k :: k in s ==> chats[k].updatedAt <= chats[m].updatedAt
  {
    var x :| x in s;
    if s != {x} {
      LatestExists(chats, s - {x});
      var m :| m in s - {x} && forall k :: k in s - {x} ==> chats[k].updatedAt <= chats[m].updatedAt;
      if chats[m].updatedAt < chats[x].updatedAt {
        assert forall k :: k in s ==> chats[k].updatedAt <= chats[x].updatedAt;
      } else {
        assert forall k :: k in s ==> chats[k].updatedAt <= chats[m].updatedAt;
      }
    }
  }

  /** Every identity of `matches` is still to be taken or has been taken into `r`. */
  ghost predicate Covers(matches: set<Id>, rest: set<Id>, r: seq<Stored<Chat>>) {
    forall id :: id in matches ==> id in rest || exists i :: 0 <= i < |r| && r[i].id == id
  }

  lemma CoverStep(matches: set<Id>, rest: set<Id>, r: seq<Stored<Chat>>, m: Id, c: Chat)
    requires Covers(matches, rest, r) && m in rest
    ensures Covers(matches, rest - {m}, r + [Stored(m, c)])
  {
    var r' := r + [Stored(m, c)];
    forall id | id in matches && id !in rest - {m} ensures exists i :: 0 <= i < |r'| && r'[i].id == id {
      if id == m {
        assert r'[|r|].id == id;
      } else {
        var i :| 0 <= i < |r| && r[i].id == id;
        assert r'[i].id == id;
      }
    }
  }

  /** `r` is newest first, and nothing left in `rest` is newer than anything in `r`. */
  ghost predicate NewestFirst(chats: map<Id, Chat>, rest: set<Id>, r: seq<Stored<Chat>>)
    requires rest <= chats.Keys
  {
    && (forall i, j :: 0 <= i < j < |r| ==> r[i].record.updatedAt >= r[j].record.updatedAt)
    && (forall i, k :: 0 <= i < |r| && k in rest ==> chats[k].updatedAt <= r[i].record.updatedAt)
  }

  lemma NewestStep(chats: map<Id, Chat>, rest: set<Id>, r: seq<Stored<Chat>>, m: Id)
    requires rest <= chats.Keys && m in rest && NewestFirst(chats, rest, r)
    requires forall k :: k in rest ==> chats[k].updatedAt <= chats[m].updatedAt
    ensures NewestFirst(chats, rest - {m}, r + [Stored(m, chats[m])])
  {
  }

  /** Each entry of `r` is a distinct matching chat, as stored, no longer in `rest`. */
  ghost predicate Taken(chats: map<Id, Chat>, p: Chat -> bool, matches: set<Id>, rest: set<Id>, r: seq<Stored<Chat>>) {
    && (forall i :: 0 <= i < |r| ==> r[i].id in matches && r[i].id !in rest && r[i].id in chats && r[i].record == chats[r[i].id])
    && (forall i :: 0 <= i < |r| ==> p(r[i].record))
    && (forall i, j :: 0 <= i < j < |r| ==> r[i].id != r[j].id)
  }

  lemma TakenStep(chats: map<Id, Chat>, p: Chat -> bool, matches: set<Id>, rest: set<Id>, r: seq<Stored<Chat>>, m: Id)
    requires Taken(chats, p, matches, rest, r) && m in rest && rest <= matches && m in chats && p(chats[m])
    ensures Taken(chats, p, matches, rest - {m}, r + [Stored(m, chats[m])])
  {
  }

  /** A matching chat that was not taken is still in `rest`, so it is no newer than any taken one. */
  lemma LeftOutAreOlder(chats: map<Id, Chat>, matches: set<Id>, rest: set<Id>, r: seq<Stored<Chat>>)
    requires rest <= chats.Keys && Covers(matches, rest, r) && NewestFirst(chats, rest, r)
    ensures forall id :: id in matches && (forall i :: 0 <= i < |r| ==> r[i].id != id) ==>
              forall i :: 0 <= i < |r| ==> chats[id].updatedAt <= r[i].record.updatedAt
  {
    forall id | id in matches && (forall i :: 0 <= i < |r| ==> r[i].id != id)
      ensures forall i :: 0 <= i < |r| ==> chats[id].updatedAt <= r[i].record.updatedAt
    {
      assert id in rest;
    }
  }

  /** `find(p).sort({updatedAt: -1}).limit(limit)`: the `limit` most recently updated matching chats
      (all of them when fewer match), newest first; the store orders equal `updatedAt` as it likes. */
  method FindRecent(chats: map<Id, Chat>, p: Chat -> bool, limit: nat) returns (r: seq<Stored<Chat>>)
    ensures |r| == Min(limit, |Matching(chats, p)|)
    ensures forall i :: 0 <= i < |r| ==> r[i].id in chats && r[i].record == chats[r[i].id] && p(r[i].record)
    ensures forall i, j :: 0 <= i < j < |r| ==> r[i].id != r[j].id
    ensures forall i, j :: 0 <= i < j < |r| ==> r[i].record.updatedAt >= r[j].record.updatedAt
    ensures forall id :: id in Matching(chats, p) && (forall i :: 0 <= i < |r| ==> r[i].id != id) ==>
              forall i :: 0 <= i < |r| ==> chats[id].updatedAt <= r[i].record.updatedAt
  {
    var matches := Matching(chats, p);
    var rest := matches;
    r := [];
    while |r| < limit && rest != {}
      invariant rest <= matches <= chats.Keys
      invariant |r| + |rest| == |matches| && |r| <= limit
      invariant Taken(chats, p, matches, rest, r)
      invariant Covers(matches, rest, r)
      invariant NewestFirst(chats, rest, r)
      decreases |rest|
    {
      LatestExists(chats, rest);
      var m :| m in rest && forall k :: k in rest ==> chats[k].updatedAt <= chats[m].updatedAt;
      TakenStep(chats, p, matches, rest, r, m);
      CoverStep(matches, rest, r, m, chats[m]);
      NewestStep(chats, rest, r, m);
      r := r + [Stored(m, chats[m])];
      rest := rest - {m};
    }
    LeftOutAreOlder(chats, matches, rest, r);
  }

  lemma {:induction false} SubsetOfSize(s: set<Id>, k: nat)
    requires k <= |s|
    ensures exists t :: t <= s && |t| == k
  {
    if k == 0 {
      assert {} <= s;
    } else {
      var x :| x in s;
      SubsetOfSize(s - {x}, k - 1);
      var t :| t <= s - {x} && |t| == k - 1;
      assert t + {x} <= s && |t + {x}| == k;
    }
  }

  /** `$sample` / `random_score` with `size: n`: some `Min(n, |ks|)` distinct identities of `ks`,
      in an order the model does not fix. */
  method Sample(ks: set<Id>, n: nat) returns (r: seq<Id>)
    ensures |r| == Min(n, |ks|)
    ensures forall i :: 0 <= i < |r| ==> r[i] in ks
    ensures forall i, j :: 0 <= i < j < |r| ==> r[i] != r[j]
  {
    SubsetOfSize(ks, Min(n, |ks|));
    var chosen :| chosen <= ks && |chosen| == Min(n, |ks|);
    r := AscendingIds(chosen);
  }
}
