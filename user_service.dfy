/** Accounts: registration, login, the profile read that keeps the level current, the profile
    update and its index patch, and account deletion. */
module UserService {
  import opened Common
  import opened Store
  import opened Text

  const UsernameTaken := "用户名已存在"
  const NoSuchUser := "用户不存在"
  const WrongPassword := "密码错误"
  const DefaultAvatar := "http://wisdomlink-img.marswu23.cn/avatar/%E9%BB%98%E8%AE%A4123456789.png"

  /** The primary store's own error for a write that breaks the unique index on `username`. */
  const DuplicateKey := Error("E11000 duplicate key error", "11000")

  /** The level a user's count of high-quality answers earns. */
  function CalculateUserLevel(highQualityAnswerCount: nat): (level: nat)
    ensures 1 <= level <= 3
    ensures level == 3 <==> highQualityAnswerCount >= 10
    ensures level == 1 <==> highQualityAnswerCount < 5
  {
    if highQualityAnswerCount >= 10 then 3
    else if highQualityAnswerCount >= 5 then 2
    else 1
  }

  /** More high-quality answers never lower the level. */
  lemma LevelMonotone(a: nat, b: nat)
    requires a <= b
    ensures CalculateUserLevel(a) <= CalculateUserLevel(b)
  {
  }

  /** The profile of a user record: everything but the credential. */
  function Profile(u: User): UserDoc {
    UserDoc(u.username, u.motto, u.avatar, u.taps, u.level, u.questionCount, u.answerCount,
            u.highQualityAnswerCount, u.questionChats, u.answerChats, u.posts)
  }

  /** The record `registerUser` saves: the schema's defaults and the default avatar. */
  function NewUser(username: string, hashedPassword: string): User {
    User(username, hashedPassword, "", [], 0, DefaultAvatar, 0, 0, 0, [], [], [])
  }

  /** The index document `registerUser` writes: the profile, with `level || 1`. */
  function RegistrationDoc(u: User): UserDoc {
    Profile(u).(level := if u.level == 0 then 1 else u.level)
  }

  /** A new account is indexed with level 1 and zero counters, but stored with the schema's level 0,
      which is not the level its answers earn: the first profile read rewrites it. */
  lemma NewAccount(username: string, hashedPassword: string)
    ensures var u := NewUser(username, hashedPassword);
      && RegistrationDoc(u).level == 1 == CalculateUserLevel(u.highQualityAnswerCount)
      && RegistrationDoc(u).questionCount == 0 && RegistrationDoc(u).answerCount == 0
      && RegistrationDoc(u).highQualityAnswerCount == 0
      && RegistrationDoc(u).username == username
      && Healed(u) != u
  {
  }

  /** `registerUser`; `hashedPassword` stands for the credential hash of the submitted password.
      `indexError` is the outcome of the index write, which is not caught: when it fails the error
      reaches the caller although the account has already been stored. */
  method RegisterUser(db: Db, username: string, hashedPassword: string, indexError: Option<Error>)
    returns (r: Result<Stored<User>>)
    requires db.Valid()
    modifies db`nextId, db`users, db`userIndex
    ensures db.Valid()
    ensures UserIdByName(old(db.users), username).Some? ==>
      r == Fail(UsernameTaken) && db.users == old(db.users) && db.userIndex == old(db.userIndex)
    ensures UserIdByName(old(db.users), username).None? ==>
      var id := old(db.nextId);
      var u := NewUser(username, hashedPassword);
      && db.users == old(db.users)[id := u]
      && db.userIndex == (if indexError.None? then old(db.userIndex)[id := RegistrationDoc(u)] else old(db.userIndex))
      && r == (if indexError.None? then Ok(Stored(id, u)) else Err(indexError.value))
    ensures db.chats == old(db.chats) && db.chatIndex == old(db.chatIndex)
    ensures db.threads == old(db.threads) && db.threadIndex == old(db.threadIndex)
  {
    if UserIdByName(db.users, username).Some? {
      return Fail(UsernameTaken);
    }
    var id := db.NewId();
    var u := NewUser(username, hashedPassword);
    db.users := db.users[id := u];
    if indexError.Some? {
      return Err(indexError.value);
    }
    db.userIndex := db.userIndex[id := RegistrationDoc(u)];
    r := Ok(Stored(id, u));
  }

  /** `loginUser`: an unknown username and a wrong password are told apart. `passwordMatches`
      stands for the credential-hash comparison. */
  function LoginUser(users: map<Id, User>, username: string, password: string,
                     passwordMatches: (string, string) -> bool): (r: Result<Stored<User>>)
    ensures r == Fail(NoSuchUser) <==> forall id :: id in users ==> users[id].username != username
    ensures r == Fail(WrongPassword) <==>
      UserIdByName(users, username).Some? && !passwordMatches(password, users[UserIdByName(users, username).value].password)
    ensures r.Ok? ==> && r.value.id in users && r.value.record == users[r.value.id]
                      && r.value.record.username == username
                      && passwordMatches(password, r.value.record.password)
    ensures r.Ok? || r == Fail(NoSuchUser) || r == Fail(WrongPassword)
  {
    match UserIdByName(users, username)
    case None => Fail(NoSuchUser)
    case Some(id) =>
      if passwordMatches(password, users[id].password) then Ok(Stored(id, users[id])) else Fail(WrongPassword)
  }

  /** A user record whose level is the one its high-quality answers earn. */
  function Healed(u: User): User {
    u.(level := CalculateUserLevel(u.highQualityAnswerCount))
  }

  /** Healing is idempotent: once a profile read has rewritten the level, the next one writes nothing. */
  lemma HealedIsStable(u: User)
    ensures Healed(Healed(u)) == Healed(u)
    ensures Healed(u).level == CalculateUserLevel(u.highQualityAnswerCount)
    ensures Healed(u) == u <==> u.level == CalculateUserLevel(u.highQualityAnswerCount)
  {
  }

  /** `getUserInfo`: the profile with the level its answers earn. The stored level is rewritten only
      when it differs; the index is patched when reachable and the document exists, otherwise the
      failure is swallowed. */
  method GetUserInfo(db: Db, userId: Id, indexUp: bool) returns (r: Result<UserDoc>)
    requires db.Valid()
    modifies db`users, db`userIndex
    ensures db.Valid()
    ensures userId !in old(db.users) ==>
      r == Fail(NoSuchUser) && db.users == old(db.users) && db.userIndex == old(db.userIndex)
    ensures userId in old(db.users) ==>
      var u := old(db.users[userId]);
      var level := CalculateUserLevel(u.highQualityAnswerCount);
      && r == Ok(Profile(Healed(u)))
      && r.value.level == level
      && db.users == old(db.users)[userId := Healed(u)]
      && (u.level == level ==> db.users == old(db.users) && db.userIndex == old(db.userIndex))
      && db.userIndex == (if u.level != level && indexUp && userId in old(db.userIndex)
                          then old(db.userIndex)[userId := old(db.userIndex[userId]).(level := level)]
                          else old(db.userIndex))
  {
    if userId !in db.users {
      return Fail(NoSuchUser);
    }
    var u := db.users[userId];
    var newLevel := CalculateUserLevel(u.highQualityAnswerCount);
    if newLevel != u.level {
      db.users := db.users[userId := u.(level := newLevel)];
      if indexUp && userId in db.userIndex {
        db.userIndex := db.userIndex[userId := db.userIndex[userId].(level := newLevel)];
      }
    }
    assert db.users == old(db.users)[userId := Healed(u)];
    r := Ok(Profile(u).(level := newLevel));
  }

  /** The fields of an `updateUserInfo` request, and of the patches built from it. `None` is an
      absent field; for `taps` it is also any value that is not an array. */
  datatype UserFields = UserFields(
    username: Option<string>,
    motto: Option<string>,
    avatar: Option<string>,
    taps: Option<seq<string>>)

  predicate IsEmptyPatch(p: UserFields) {
    p.username.None? && p.motto.None? && p.avatar.None? && p.taps.None?
  }

  /** A field kept only when it is not blank, and then trimmed. */
  function NonBlankTrimmed(s: Option<string>): (r: Option<string>)
    ensures r.Some? <==> s.Some? && !AllSpace(s.value)
    ensures r.Some? ==> r.value == Trim(s.value) && r.value != []
                        && !IsSpace(r.value[0]) && !IsSpace(r.value[|r.value| - 1])
  {
    if s.Some? then
      TrimEnds(s.value);
      TrimBlank(s.value);
      if Trim(s.value) != "" then Some(Trim(s.value)) else None
    else
      None
  }

  /** The fields `updateUserInfo` writes (its `updateData`): username and avatar when not blank,
      trimmed; motto whenever it is given, even empty; taps when given as an array. */
  function SelectUpdate(data: UserFields): UserFields {
    UserFields(NonBlankTrimmed(data.username), data.motto, NonBlankTrimmed(data.avatar), data.taps)
  }

  lemma NonBlankTrimmedIdempotent(s: Option<string>)
    ensures NonBlankTrimmed(NonBlankTrimmed(s)) == NonBlankTrimmed(s)
  {
    if s.Some? && Trim(s.value) != "" {
      var x := Trim(s.value);
      TrimIdempotent(s.value);
      assert NonBlankTrimmed(s) == Some(x);
      assert NonBlankTrimmed(Some(x)) == Some(x);
    } else {
      assert NonBlankTrimmed(s) == None;
    }
  }

  /** Selecting is idempotent: a selected patch passes the field rules unchanged. */
  lemma SelectUpdateIdempotent(data: UserFields)
    ensures SelectUpdate(SelectUpdate(data)) == SelectUpdate(data)
  {
    NonBlankTrimmedIdempotent(data.username);
    NonBlankTrimmedIdempotent(data.avatar);
  }

  /** A user record with the fields of `p` written. */
  function ApplyUpdate(u: User, p: UserFields): (r: User)
    ensures r.(username := u.username, motto := u.motto, avatar := u.avatar, taps := u.taps) == u
    ensures p.username.Some? ==> r.username == p.username.value
    ensures p.username.None? ==> r.username == u.username
    ensures p.motto.Some? ==> r.motto == p.motto.value
    ensures p.avatar.Some? ==> r.avatar == p.avatar.value
    ensures p.taps.Some? ==> r.taps == p.taps.value
  {
    u.(username := p.username.GetOr(u.username), motto := p.motto.GetOr(u.motto),
       avatar := p.avatar.GetOr(u.avatar), taps := p.taps.GetOr(u.taps))
  }

  /** An index document with the fields of `p` written. */
  function ApplyToDoc(d: UserDoc, p: UserFields): UserDoc {
    d.(username := p.username.GetOr(d.username), motto := p.motto.GetOr(d.motto),
       avatar := p.avatar.GetOr(d.avatar), taps := p.taps.GetOr(d.taps))
  }

  /** The index patch (`esUpdateData`): a key for each written field, its value read back from the
      updated record. */
  function IndexPatch(p: UserFields, updated: User): UserFields {
    UserFields(
      if Truthy(p.username) then Some(updated.username) else None,
      if p.motto.Some? then Some(updated.motto) else None,
      if Truthy(p.avatar) then Some(updated.avatar) else None,
      if p.taps.Some? then Some(updated.taps) else None)
  }

  /** The index patch has exactly the keys of the store update, with the same values, and it
      brings a current index document to the updated profile. */
  lemma IndexPatchIsTheUpdate(data: UserFields, u: User)
    ensures var p := SelectUpdate(data);
      && IndexPatch(p, ApplyUpdate(u, p)) == p
      && ApplyToDoc(Profile(u), IndexPatch(p, ApplyUpdate(u, p))) == Profile(ApplyUpdate(u, p))
      && (IsEmptyPatch(IndexPatch(p, ApplyUpdate(u, p))) <==> IsEmptyPatch(p))
  {
  }

  /** `updateData`, assembled field by field. */
  method BuildUpdateData(data: UserFields) returns (updateData: UserFields)
    ensures updateData == SelectUpdate(data)
  {
    updateData := UserFields(None, None, None, None);
    if Truthy(data.username) && Trim(data.username.value) != "" {
      updateData := updateData.(username := Some(Trim(data.username.value)));
    }
    if data.motto.Some? {
      updateData := updateData.(motto := data.motto);
    }
    if Truthy(data.avatar) && Trim(data.avatar.value) != "" {
      updateData := updateData.(avatar := Some(Trim(data.avatar.value)));
    }
    if data.taps.Some? {
      updateData := updateData.(taps := data.taps);
    }
  }

  /** `esUpdateData`, assembled field by field. */
  method BuildIndexPatch(updateData: UserFields, updated: User) returns (esUpdateData: UserFields)
    ensures esUpdateData == IndexPatch(updateData, updated)
  {
    esUpdateData := UserFields(None, None, None, None);
    if Truthy(updateData.username) {
      esUpdateData := esUpdateData.(username := Some(updated.username));
    }
    if updateData.motto.Some? {
      esUpdateData := esUpdateData.(motto := Some(updated.motto));
    }
    if Truthy(updateData.avatar) {
      esUpdateData := esUpdateData.(avatar := Some(updated.avatar));
    }
    if updateData.taps.Some? {
      esUpdateData := esUpdateData.(taps := Some(updated.taps));
    }
  }

  /** Writing `p` to `userId` would give it a username another user has. */
  predicate Clash(users: map<Id, User>, userId: Id, p: UserFields) {
    p.username.Some? && exists other :: other in users && other != userId && users[other].username == p.username.value
  }

  /** A write that clashes with no other user keeps usernames unique. */
  lemma UnclashedKeepsUnique(users: map<Id, User>, userId: Id, p: UserFields)
    requires UniqueUsernames(users) && userId in users && !Clash(users, userId, p)
    ensures UniqueUsernames(users[userId := ApplyUpdate(users[userId], p)])
  {
    var users' := users[userId := ApplyUpdate(users[userId], p)];
    forall a, b | a in users' && b in users' && users'[a].username == users'[b].username ensures a == b {
      if a != userId && b != userId {
        assert users'[a] == users[a] && users'[b] == users[b];
      }
    }
  }

  /** `updateUserInfo`: writes the selected fields, then patches the index with exactly those keys,
      skipping the call when there are none; an index failure is swallowed. A username another user
      holds is refused by the store's unique index and that error propagates. */
  method UpdateUserInfo(db: Db, userId: Id, data: UserFields, indexUp: bool) returns (r: Result<Stored<User>>)
    requires db.Valid()
    modifies db`users, db`userIndex
    ensures db.Valid()
    ensures userId !in old(db.users) ==>
      r == Fail(NoSuchUser) && db.users == old(db.users) && db.userIndex == old(db.userIndex)
    ensures userId in old(db.users) && Clash(old(db.users), userId, SelectUpdate(data)) ==>
      r == Err(DuplicateKey) && db.users == old(db.users) && db.userIndex == old(db.userIndex)
    ensures userId in old(db.users) && !Clash(old(db.users), userId, SelectUpdate(data)) ==>
      var p := SelectUpdate(data);
      var updated := ApplyUpdate(old(db.users[userId]), p);
      && r == Ok(Stored(userId, updated))
      && db.users == old(db.users)[userId := updated]
      && db.userIndex == (if !IsEmptyPatch(p) && indexUp && userId in old(db.userIndex)
                          then old(db.userIndex)[userId := ApplyToDoc(old(db.userIndex[userId]), p)]
                          else old(db.userIndex))
  {
    if userId !in db.users {
      return Fail(NoSuchUser);
    }
    var updateData := BuildUpdateData(data);
    if Clash(db.users, userId, updateData) {
      return Err(DuplicateKey);
    }
    var updated := ApplyUpdate(db.users[userId], updateData);
    UnclashedKeepsUnique(db.users, userId, updateData);
    db.users := db.users[userId := updated];
    var esUpdateData := BuildIndexPatch(updateData, updated);
    IndexPatchIsTheUpdate(data, old(db.users[userId]));
    assert esUpdateData == updateData;
    if !IsEmptyPatch(esUpdateData) && indexUp && userId in db.userIndex {
      db.userIndex := db.userIndex[userId := ApplyToDoc(db.userIndex[userId], esUpdateData)];
    }
    r := Ok(Stored(userId, updated));
  }

  /** `deleteUserByUsername`: removes the account of that name; the index delete's failure is
      swallowed. The user's chats and posts are left in place. */
  method DeleteUserByUsername(db: Db, username: string, indexUp: bool) returns (r: Result<Stored<User>>)
    requires db.Valid()
    modifies db`users, db`userIndex
    ensures db.Valid()
    ensures UserIdByName(old(db.users), username).None? ==>
      r == Fail(NoSuchUser) && db.users == old(db.users) && db.userIndex == old(db.userIndex)
    ensures UserIdByName(old(db.users), username).Some? ==>
      var id := UserIdByName(old(db.users), username).value;
      && r == Ok(Stored(id, old(db.users[id])))
      && db.users == old(db.users) - {id}
      && db.userIndex == (if indexUp then old(db.userIndex) - {id} else old(db.userIndex))
    ensures UserIdByName(db.users, username).None?
  {
    var found := UserIdByName(db.users, username);
    if found.None? {
      return Fail(NoSuchUser);
    }
    var id := found.value;
    r := Ok(Stored(id, db.users[id]));
    db.users := db.users - {id};
    if indexUp {
      db.userIndex := db.userIndex - {id};
    }
  }
}
