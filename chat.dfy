/** The sample chat server built on the multiplexing layer: it names each
    member that joins `user1`, `user2`, ..., relays messages and nickname
    changes to every live session, and announces departures. */
module Chat {
  import opened Protocol
  import opened Strings
  import opened Hypercube

  newtype int32 = x: int | -0x8000_0000 <= x < 0x8000_0000

  /** `AtomicInteger.incrementAndGet`: one more, modulo 2^32, so the largest
      `Int` is followed by the smallest. */
  function Increment(x: int32): (r: int32)
    ensures (r as int - x as int - 1) % 0x1_0000_0000 == 0
  {
    if x == 0x7fff_ffff then -0x8000_0000 else x + 1
  }

  /** The default nickname of the member counted as `n`. */
  function UserName(n: int32): (r: string)
    ensures |r| > 4 && r[..4] == "user"
  {
    "user" + IntToDecimal(n as int)
  }

  /** The default nickname is `user` followed by the count in decimal: a
      minus sign for a negative count, then digits without a leading zero
      that denote the count's magnitude. */
  lemma UserNameSpellsCount(n: int32)
    ensures var r := UserName(n);
      && (r[4] == '-' <==> n < 0)
      && var digits := if n < 0 then r[5..] else r[4..];
      && IsDigits(digits)
      && DecimalValue(digits) == (if n < 0 then -(n as int) else n as int)
      && (digits[0] == '0' ==> digits == "0")
  {
    var d := IntToDecimal(n as int);
    assert UserName(n)[4..] == d;
    assert UserName(n)[5..] == d[1..];
  }

  /** Different counter values give different default nicknames. */
  lemma UserNamesDistinct(a: int32, b: int32)
    requires a != b
    ensures UserName(a) != UserName(b)
  {
    if UserName(a) == UserName(b) {
      assert IntToDecimal(a as int) == UserName(a)[4..];
      assert IntToDecimal(b as int) == UserName(b)[4..];
      IntToDecimalInjective(a as int, b as int);
    }
  }

  /** The payload of a `message` event: sender's nickname and text. */
  function MessageJson(from: string, content: string): Json
  {
    JObject([("from", JString(from)), ("content", JString(content))])
  }

  /** The payload of a `nickname` event: the previous and the new nickname. */
  function NicknameJson(previous: string, next: string): Json
  {
    JObject([("old", JString(previous)), ("new", JString(next))])
  }

  /** Chat state: the nickname of every member, by session id, and the number
      of joins so far (as a 32-bit counter). */
  class ChatServer {
    const hub: HypercubeSockets
    var membersName: map<string, string>
    var userCount: int32

    constructor (hub: HypercubeSockets)
      ensures this.hub == hub && membersName == map[] && userCount == 0
    {
      this.hub := hub;
      membersName := map[];
      userCount := 0;
    }

    /** A member joins: the counter advances by one, the member gets the
        default nickname for the new count, no other entry changes, and the
        nickname is announced to every live session. */
    method MemberJoin(socketId: string)
      modifies this, hub.sockets`outbox
      ensures userCount == Increment(old(userCount))
      ensures membersName == old(membersName)[socketId := UserName(userCount)]
      ensures FannedOut(hub.sockets, Event("memberJoin", Some(JString(UserName(userCount)))))
    {
      userCount := Increment(userCount);
      membersName := membersName[socketId := UserName(userCount)];
      hub.Broadcast("memberJoin", Some(JString(membersName[socketId])));
    }

    /** A message from a member is relayed to every live session under the
        sender's current nickname; the chat state does not change. */
    method ReceivedMessage(senderId: string, content: string)
      requires senderId in membersName
      modifies hub.sockets`outbox
      ensures FannedOut(hub.sockets, Event("message", Some(MessageJson(membersName[senderId], content))))
    {
      hub.Broadcast("message", Some(MessageJson(membersName[senderId], content)));
    }

    /** A member renames themself: only their entry changes, and the previous
        and new nicknames are announced. */
    method ChangeNickname(senderId: string, newNickname: string)
      requires senderId in membersName
      modifies this`membersName, hub.sockets`outbox
      ensures membersName == old(membersName)[senderId := newNickname]
      ensures FannedOut(hub.sockets, Event("nickname", Some(NicknameJson(old(membersName[senderId]), newNickname))))
    {
      var oldNickname := membersName[senderId];
      membersName := membersName[senderId := newNickname];
      hub.Broadcast("nickname", Some(NicknameJson(oldNickname, newNickname)));
    }

    /** A member leaves: their nickname is announced while still present, then
        only their entry is removed. */
    method MemberLeft(socketId: string)
      requires socketId in membersName
      modifies this`membersName, hub.sockets`outbox
      ensures membersName == old(membersName) - {socketId}
      ensures FannedOut(hub.sockets, Event("memberLeft", Some(JString(old(membersName[socketId])))))
    {
      hub.Broadcast("memberLeft", Some(JString(membersName[socketId])));
      membersName := membersName - {socketId};
    }
  }

  /** The first member to join is called `user1`. */
  lemma FirstUserName()
    ensures UserName(1) == "user1"
  {
    assert IntToDecimal(1) == NatToDecimal(1) == [Digit(1)] == "1";
  }

  /** A single member joins, renames themself to `milo` and says `Hello`:
      what their session receives. */
  method ChangeNicknameConversation() returns (received: seq<OutFrame>)
    ensures received == [
      Event("memberJoin", Some(JString("user1"))),
      Event("nickname", Some(NicknameJson("user1", "milo"))),
      Event("message", Some(MessageJson("milo", "Hello")))]
  {
    var hub := new HypercubeSockets();
    var server := new ChatServer(hub);
    var session := new HypercubeSession("s1", true);
    hub.sockets := {session};
    server.MemberJoin(session.id);
    ghost var first := server.membersName[session.id];
    assert session.outbox == [Event("memberJoin", Some(JString(first)))];
    server.ChangeNickname(session.id, "milo");
    assert session.outbox == [Event("memberJoin", Some(JString(first))),
                              Event("nickname", Some(NicknameJson(first, "milo")))];
    server.ReceivedMessage(session.id, "Hello");
    FirstUserName();
    received := session.outbox;
  }
}
