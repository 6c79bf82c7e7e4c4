/** The one-to-one live chat: a registry of each user's connection and the set of chats that have
    been ended, driven by the connect, message and close events of the socket route. */
module LiveSession {
  import opened Common
  import opened Store
  import ChatService

  /** A socket connection. */
  type ConnId = nat

  const EndedNotice := "对话已结束"
  const RefusedNotice := "该对话已结束，不能再发送消息"

  /** An incoming frame: text that is not JSON, or a JSON object whose fields may be absent. */
  datatype Inbound =
    | Unparseable
    | Frame(toUserId: Option<Id>, content: Option<string>, chatId: Option<Id>, end: bool)

  /** What is written to a socket: the plain-text format error, a JSON system notice
      `{system: true, msg}`, or a forwarded message `{fromUserId, content, chatId}`. */
  datatype Payload =
    | FormatError
    | Notice(msg: string)
    | Forwarded(fromUserId: Id, content: Option<string>, chatId: Option<Id>)

  datatype Output = Send(conn: ConnId, payload: Payload) | CloseSocket(conn: ConnId)

  /** The two module-level maps: user id to connection, chat id to "active". */
  datatype Session = Session(userConn: map<Id, ConnId>, chatActive: map<Id, bool>)

  /** The chat to persist as completed: that of a frame with `end` and a chat id. */
  function EndsChat(frame: Inbound): Option<Id> {
    if frame.Frame? && frame.end && frame.chatId.Some? then Some(frame.chatId.value) else None
  }

  /** The connection registered for an optional user id. */
  function TargetOf(s: Session, to: Option<Id>): Option<ConnId> {
    if to.Some? && to.value in s.userConn then Some(s.userConn[to.value]) else None
  }

  /** The effect of a message from `userId` arriving on `conn`: the new session and what is sent. */
  function OnMessageStep(s: Session, userId: Id, conn: ConnId, frame: Inbound): (r: (Session, seq<Output>))
    ensures r.0.userConn == s.userConn
    ensures frame.Unparseable? ==> r == (s, [Send(conn, FormatError)])
    ensures EndsChat(frame).Some? ==>
      && r.0.chatActive == s.chatActive[EndsChat(frame).value := false]
      && r.1 == [Send(conn, Notice(EndedNotice))] +
                (if TargetOf(s, frame.toUserId).Some? then [Send(TargetOf(s, frame.toUserId).value, Notice(EndedNotice))] else [])
    ensures EndsChat(frame).None? ==> r.0.chatActive == s.chatActive
    ensures forall i :: 0 <= i < |r.1| && r.1[i].Send? && r.1[i].payload.Forwarded? ==>
      && frame.Frame? && EndsChat(frame).None?
      && TargetOf(s, frame.toUserId) == Some(r.1[i].conn)
      && r.1[i].payload == Forwarded(userId, frame.content, frame.chatId)
  {
    match frame
    case Unparseable => (s, [Send(conn, FormatError)])
    case Frame(to, content, chatId, end) =>
      if end && chatId.Some? then
        (s.(chatActive := s.chatActive[chatId.value := false]),
         [Send(conn, Notice(EndedNotice))] +
         (if TargetOf(s, to).Some? then [Send(TargetOf(s, to).value, Notice(EndedNotice))] else []))
      else if chatId.Some? && chatId.value in s.chatActive && !s.chatActive[chatId.value] then
        (s, [Send(conn, Notice(RefusedNotice))])
      else
        (s, if TargetOf(s, to).Some? then [Send(TargetOf(s, to).value, Forwarded(userId, content, chatId))] else [])
  }

  /** A chat is refused once it has an entry `false`; an absent entry counts as active. */
  predicate Ended(s: Session, chatId: Id) {
    chatId in s.chatActive && !s.chatActive[chatId]
  }

  /** After a chat has been ended, a message naming it is refused with a notice to its sender
      alone, whoever sends it and whoever it is for. */
  lemma EndedChatRefuses(s: Session, userId: Id, conn: ConnId, to: Option<Id>, content: Option<string>, chatId: Id)
    requires Ended(s, chatId)
    ensures OnMessageStep(s, userId, conn, Frame(to, content, Some(chatId), false)) == (s, [Send(conn, Notice(RefusedNotice))])
  {
  }

  /** A message for an active (or unknown) chat is forwarded exactly when its target is connected;
      an offline target is not an error and nobody else is written to. */
  lemma ForwardedIffConnected(s: Session, userId: Id, conn: ConnId, to: Option<Id>, content: Option<string>, chatId: Option<Id>)
    requires chatId.None? || !Ended(s, chatId.value)
    ensures var (s', out) := OnMessageStep(s, userId, conn, Frame(to, content, chatId, false));
      && s' == s
      && (to.Some? && to.value in s.userConn <==> out != [])
      && (out != [] ==> out == [Send(s.userConn[to.value], Forwarded(userId, content, chatId))])
  {
  }

  /** An `end` flag without a chat id ends nothing: the frame is handled as an ordinary message. */
  lemma EndWithoutChatIsForwarded(s: Session, userId: Id, conn: ConnId, to: Option<Id>, content: Option<string>)
    ensures OnMessageStep(s, userId, conn, Frame(to, content, None, true)) ==
            OnMessageStep(s, userId, conn, Frame(to, content, None, false))
  {
  }

  /** The events of the socket route: a connection opened (with the authenticated user id, if any),
      a message received on a user's connection, a user's connection closed. */
  datatype Event =
    | Connected(authenticated: Option<Id>, conn: ConnId)
    | Received(userId: Id, conn: ConnId, frame: Inbound)
    | Closed(closedUser: Id)

  /** The session after one event. */
  function Step(s: Session, e: Event): Session {
    match e
    case Connected(userId, conn) => if userId.Some? then s.(userConn := s.userConn[userId.value := conn]) else s
    case Received(userId, conn, frame) => OnMessageStep(s, userId, conn, frame).0
    case Closed(userId) => s.(userConn := s.userConn - {userId})
  }

  function Run(s: Session, events: seq<Event>): Session
    decreases |events|
  {
    if events == [] then s else Run(Step(s, events[0]), events[1..])
  }

  /** Once ended, a chat stays ended, whatever happens afterwards. */
  lemma {:induction false} EndedStaysEnded(s: Session, events: seq<Event>, chatId: Id)
    requires Ended(s, chatId)
    ensures Ended(Run(s, events), chatId)
    decreases |events|
  {
    if events != [] {
      EndedStaysEnded(Step(s, events[0]), events[1..], chatId);
    }
  }

  /** No event ever marks a chat active: from an empty (or all-ended) map, every entry stays `false`. */
  lemma {:induction false} NeverReactivated(s: Session, events: seq<Event>)
    requires forall c :: c in s.chatActive ==> !s.chatActive[c]
    ensures forall c :: c in Run(s, events).chatActive ==> !Run(s, events).chatActive[c]
    decreases |events|
  {
    if events != [] {
      NeverReactivated(Step(s, events[0]), events[1..]);
    }
  }

  /** Closing an old connection of a user drops the user's registration, even when a newer
      connection of the same user had replaced it. */
  lemma CloseDropsNewerConnection(s: Session, userId: Id, first: ConnId, second: ConnId)
    ensures userId !in Run(s, [Connected(Some(userId), first), Connected(Some(userId), second), Closed(userId)]).userConn
  {
    var events := [Connected(Some(userId), first), Connected(Some(userId), second), Closed(userId)];
    var s1 := Step(s, events[0]);
    var s2 := Step(s1, events[1]);
    var s3 := Step(s2, events[2]);
    assert events[1..][1..][1..] == [];
    calc {
      Run(s, events);
      Run(s1, events[1..]);
      Run(s2, events[1..][1..]);
      Run(s3, events[1..][1..][1..]);
      s3;
    }
  }

  /** The live chat route's state, updated in place by its handlers. */
  class SessionManager {
    var userConn: map<Id, ConnId>
    var chatActive: map<Id, bool>

    function State(): Session
      reads this
    {
      Session(userConn, chatActive)
    }

    constructor ()
      ensures userConn == map[] && chatActive == map[]
    {
      userConn, chatActive := map[], map[];
    }

    /** A new connection: without a user id it is closed and nothing is registered; otherwise it
        replaces any earlier connection of that user. */
    method Connect(userId: Option<Id>, conn: ConnId) returns (out: seq<Output>)
      modifies this`userConn
      ensures State() == Step(old(State()), Connected(userId, conn))
      ensures userId.None? ==> out == [CloseSocket(conn)] && userConn == old(userConn)
      ensures userId.Some? ==> out == [] && userConn == old(userConn)[userId.value := conn]
    {
      if userId.None? {
        return [CloseSocket(conn)];
      }
      userConn := userConn[userId.value := conn];
      out := [];
    }

    /** A message on the connection of `userId`. An end frame marks the chat ended, then persists
        `completed` through the chat service (whose failure is swallowed), then notifies. */
    method OnMessage(db: Db, userId: Id, conn: ConnId, frame: Inbound, now: nat, patchUp: bool, reindexUp: bool)
      returns (out: seq<Output>)
      requires db.Valid()
      modifies this`chatActive, db`chats, db`chatIndex
      ensures db.Valid()
      ensures (State(), out) == OnMessageStep(old(State()), userId, conn, frame)
      ensures State() == Step(old(State()), Received(userId, conn, frame))
      ensures EndsChat(frame).None? ==> db.chats == old(db.chats) && db.chatIndex == old(db.chatIndex)
      ensures EndsChat(frame).Some? ==>
        var chatId := EndsChat(frame).value;
        && (chatId !in old(db.chats) ==> db.chats == old(db.chats) && db.chatIndex == old(db.chatIndex))
        && (chatId in old(db.chats) ==>
              && db.chats == old(db.chats)[chatId := old(db.chats[chatId]).(status := Completed, updatedAt := now)]
              && db.chatIndex == ChatService.Mirror(old(db.chatIndex), chatId, ChatService.StatusPatch(Completed, now),
                                                    db.chats[chatId], patchUp, reindexUp))
    {
      var before := State();
      if frame.Unparseable? {
        return [Send(conn, FormatError)];
      }
      if frame.end && frame.chatId.Some? {
        chatActive := chatActive[frame.chatId.value := false];
        ghost var ended := State();
        var _ := ChatService.UpdateChatStatus(db, frame.chatId.value, Completed, now, patchUp, reindexUp);
        out := [Send(conn, Notice(EndedNotice))];
        var target := TargetOf(before, frame.toUserId);
        if target.Some? {
          out := out + [Send(target.value, Notice(EndedNotice))];
        }
        assert State() == ended;
        assert ended == before.(chatActive := before.chatActive[frame.chatId.value := false]);
        assert out == [Send(conn, Notice(EndedNotice))] +
          (if TargetOf(before, frame.toUserId).Some? then [Send(TargetOf(before, frame.toUserId).value, Notice(EndedNotice))] else []);
        return;
      }
      if frame.chatId.Some? && frame.chatId.value in chatActive && !chatActive[frame.chatId.value] {
        return [Send(conn, Notice(RefusedNotice))];
      }
      var target := TargetOf(before, frame.toUserId);
      out := if target.Some? then [Send(target.value, Forwarded(userId, frame.content, frame.chatId))] else [];
    }

    /** The close of a connection of `userId`: its registration goes, whichever connection it is;
        the chat map is untouched. */
    method OnClose(userId: Id)
      modifies this`userConn
      ensures State() == Step(old(State()), Closed(userId))
      ensures userConn == old(userConn) - {userId} && chatActive == old(chatActive)
    {
      userConn := userConn - {userId};
    }
  }
}
