/**
 * The chat screen (`ChatActivity`): matchmaking through a waiting pool of
 * recently seen online users, the chat room both peers join, the sweep of
 * stale pool entries and idle rooms, leaving (and deleting the room once
 * nobody is left), and the game-invitation protocol that ends in a new game
 * room and the hand-over to the orientation screen.
 *
 * Push keys and `UUID`s are parameters; `System.currentTimeMillis()` and
 * `ServerValue.TIMESTAMP` are the parameter `now`; Android callbacks run
 * in the order the main thread runs them.
 */
module Chat {
  import opened Wrappers
  import opened Store
  import opened JavaText
  import opened Intents
  import Ledger
  import GameTokens
  import RoundGame
  import MessageList

  const WAITING_POOL_NODE := "waitingPool"
  const CHAT_ROOMS_NODE := "chatRooms"
  const MESSAGES_NODE := "messages"
  const USER_PRESENCE_NODE := "userPresence"
  const ROOM_PARTICIPANTS_NODE := "participants"
  const INVITATION_NODE := "gameInvitation"

  const MATCHMAKING_TIMEOUT := 45000
  const PRESENCE_TIMEOUT := 15000
  const INVITATION_TIMEOUT := 60000
  /** Pool entries and idle rooms at least this old are swept. */
  const STALE_AGE := 300000

  const DEFAULT_CHAT_NAME := "Anonymous"

  const ACCEPTED := "accepted"
  const DECLINED := "declined"
  const TIMEOUT := "timeout"
  const PENDING := "pending"
  const GAME_INVITATION_TYPE := "game_invitation"

  // ----------------------------------------------------------------- paths

  function PresenceRoot(): Path {
    [USER_PRESENCE_NODE]
  }

  function PresenceNode(user: string): Path {
    [USER_PRESENCE_NODE, user]
  }

  function PresenceField(user: string, field: string): Path {
    [USER_PRESENCE_NODE, user, field]
  }

  function PoolRoot(): Path {
    [WAITING_POOL_NODE]
  }

  function PoolEntry(key: string): Path {
    [WAITING_POOL_NODE, key]
  }

  function PoolField(key: string, field: string): Path {
    [WAITING_POOL_NODE, key, field]
  }

  function RoomsRoot(): Path {
    [CHAT_ROOMS_NODE]
  }

  function ChatRoom(id: string): Path {
    [CHAT_ROOMS_NODE, id]
  }

  function ChatField(id: string, field: string): Path {
    [CHAT_ROOMS_NODE, id, field]
  }

  function ParticipantsNode(id: string): Path {
    [CHAT_ROOMS_NODE, id, ROOM_PARTICIPANTS_NODE]
  }

  function ParticipantPath(id: string, user: string): Path {
    [CHAT_ROOMS_NODE, id, ROOM_PARTICIPANTS_NODE, user]
  }

  function InvitationNode(id: string): Path {
    [CHAT_ROOMS_NODE, id, INVITATION_NODE]
  }

  function InvitationField(id: string, field: string): Path {
    [CHAT_ROOMS_NODE, id, INVITATION_NODE, field]
  }

  function MessageNode(id: string, key: string): Path {
    [CHAT_ROOMS_NODE, id, MESSAGES_NODE, key]
  }

  function MessageField(id: string, key: string, field: string): Path {
    [CHAT_ROOMS_NODE, id, MESSAGES_NODE, key, field]
  }

  // -------------------------------------------------------------- presence

  /** `setupUserPresence`: the presence node replaced by online, last seen and name. */
  function PresenceOps(user: string, name: string, now: int): (r: seq<Op>)
    ensures Inside(r, PresenceNode(user))
  {
    SetValue(PresenceNode(user),
      [Put(PresenceField(user, "online"), Bool(true)),
       Put(PresenceField(user, "lastSeen"), Int(now)),
       Put(PresenceField(user, "userName"), Str(name))])
  }

  /** `onDestroy` (and the server's `onDisconnect`): the presence node becomes the bare value false. */
  function OfflineOps(user: string): seq<Op> {
    [Put(PresenceNode(user), Bool(false))]
  }

  /** A presence flag makes its user a child of the presence node. */
  lemma OnlineIsPresenceChild(d: Data)
    ensures forall u :: IsTrue(d, PresenceField(u, "online")) ==> u in Children(d, PresenceRoot())
  {
    forall u | IsTrue(d, PresenceField(u, "online")) ensures u in Children(d, PresenceRoot()) {
      var q := PresenceField(u, "online");
      assert q in d && Within(PresenceRoot(), q) && |q| > 1 && q[1] == u;
    }
  }

  /**
   * `findRandomOnlinePartner`'s query (`orderByChild("online").equalTo(true)`)
   * without the caller: every other user whose `online` child is true.
   */
  function OnlineUsers(d: Data, self: string): (r: set<string>)
    ensures forall u :: u in r <==> u != self && IsTrue(d, PresenceField(u, "online"))
  {
    OnlineIsPresenceChild(d);
    set u | u in Children(d, PresenceRoot()) && u != self && IsTrue(d, PresenceField(u, "online"))
  }

  /** Another peer sees a user who has just set up presence as online. */
  lemma PresenceMakesOnline(d: Data, user: string, name: string, now: int, other: string)
    requires other != user
    ensures user in OnlineUsers(Apply(d, PresenceOps(user, name, now)), other)
  {
    var leaves := PresenceOps(user, name, now)[1..];
    assert forall i, j :: 0 <= i < j < |leaves| ==> leaves[i].at[2] != leaves[j].at[2];
    SameDepthDisjoint(leaves, 3);
    SetValueReads(d, PresenceNode(user), leaves, 0);
    assert IsTrue(Apply(d, PresenceOps(user, name, now)), PresenceField(user, "online"));
  }

  /** Once the presence node is the bare value false, nobody sees the user as online any more. */
  lemma OfflineIsNotOnline(d: Data, user: string, other: string)
    ensures user !in OnlineUsers(Apply(d, OfflineOps(user)), other)
  {
    var op := OfflineOps(user)[0];
    var after := Apply(d, OfflineOps(user));
    assert after == Apply(Step(d, op), OfflineOps(user)[1..]);
    assert OfflineOps(user)[1..] == [];
    assert PresenceField(user, "online") !in after by {
      assert Within(PresenceNode(user), PresenceField(user, "online"));
    }
  }

  // ------------------------------------------------------------ candidates

  /**
   * `findWaitingOnlineUsers`'s test of one pool entry: a `userId` among the
   * online users and a `timestamp` less than 15 s old.
   */
  predicate Qualifies(d: Data, online: set<string>, key: string, now: int) {
    var user := GetStr(d, PoolField(key, "userId"));
    var stamp := GetInt(d, PoolField(key, "timestamp"));
    user.Some? && user.value in online && stamp.Some? && now - stamp.value < PRESENCE_TIMEOUT
  }

  /** The qualifying entries among `keys`, in order. */
  function Candidates(d: Data, online: set<string>, keys: seq<string>, now: int): (r: seq<string>)
    ensures forall k :: k in r <==> k in keys && Qualifies(d, online, k, now)
    ensures |r| <= |keys|
    decreases |keys|
  {
    if keys == [] then []
    else
      var last := keys[|keys| - 1];
      assert keys == keys[..|keys| - 1] + [last];
      Candidates(d, online, keys[..|keys| - 1], now) + (if Qualifies(d, online, last, now) then [last] else [])
  }

  /** The loop of `findWaitingOnlineUsers` over the pool children in snapshot order. */
  method CollectCandidates(d: Data, online: set<string>, keys: seq<string>, now: int) returns (waiting: seq<string>)
    ensures waiting == Candidates(d, online, keys, now)
  {
    waiting := [];
    var i := 0;
    while i < |keys|
      invariant 0 <= i <= |keys|
      invariant waiting == Candidates(d, online, keys[..i], now)
    {
      assert keys[..i + 1][..i] == keys[..i] && keys[..i + 1][i] == keys[i];
      assert (Candidates(d, online, keys[..i + 1], now) ==
        Candidates(d, online, keys[..i], now) + (if Qualifies(d, online, keys[i], now) then [keys[i]] else []));
      if Qualifies(d, online, keys[i], now) {
        waiting := waiting + [keys[i]];
      }
      i := i + 1;
    }
    assert keys[..|keys|] == keys;
  }

  /** A candidate is another user, online, whose entry is fresh: nobody is ever matched with themselves. */
  lemma CandidateIsFreshOtherUser(d: Data, self: string, keys: seq<string>, now: int, k: string)
    requires k in Candidates(d, OnlineUsers(d, self), keys, now)
    ensures (var user := GetStr(d, PoolField(k, "userId"));
      user.Some? && user.value != self && IsTrue(d, PresenceField(user.value, "online")) &&
      GetInt(d, PoolField(k, "timestamp")).Some? && now - GetInt(d, PoolField(k, "timestamp")).value < PRESENCE_TIMEOUT)
  {
  }

  /** `addToWaitingPool`: a new entry under a fresh push key. */
  function PoolEntryOps(key: string, user: string, name: string, now: int): (r: seq<Op>)
    ensures Inside(r, PoolEntry(key))
  {
    SetValue(PoolEntry(key),
      [Put(PoolField(key, "userId"), Str(user)),
       Put(PoolField(key, "userName"), Str(name)),
       Put(PoolField(key, "timestamp"), Int(now))])
  }

  /** The three fields of a pool entry are distinct leaves. */
  lemma PoolEntryLeavesDisjoint(key: string, user: string, name: string, now: int)
    ensures Disjoint(PoolEntryOps(key, user, name, now)[1..])
  {
    var leaves := PoolEntryOps(key, user, name, now)[1..];
    assert leaves[0].at[2][4] == 'I' && leaves[1].at[2][4] == 'N' && leaves[2].at[2][4] == 's';
    SameDepthDisjoint(leaves, 3);
  }

  /** A new pool entry reads back its user, name and stamp, and leaves presence alone. */
  lemma PoolEntryReads(d: Data, key: string, user: string, name: string, now: int, p: Path)
    requires |p| >= 1 && p[0] == USER_PRESENCE_NODE
    ensures (var after := Apply(d, PoolEntryOps(key, user, name, now));
      GetStr(after, PoolField(key, "userId")) == Some(user) &&
      GetStr(after, PoolField(key, "userName")) == Some(name) &&
      GetInt(after, PoolField(key, "timestamp")) == Some(now) &&
      Get(after, p) == Get(d, p))
  {
    var ops := PoolEntryOps(key, user, name, now);
    var leaves := ops[1..];
    PoolEntryLeavesDisjoint(key, user, name, now);
    SetValueReads(d, PoolEntry(key), leaves, 0);
    SetValueReads(d, PoolEntry(key), leaves, 1);
    SetValueReads(d, PoolEntry(key), leaves, 2);
    assert forall i :: 0 <= i < |ops| ==> |ops[i].at| >= 1 && ops[i].at[0] == WAITING_POOL_NODE;
    OtherRootUntouched(d, ops, WAITING_POOL_NODE, p);
  }

  /**
   * A pool entry written at `now` by an online user is a candidate for
   * another peer exactly while it is less than 15 s old.
   */
  lemma FreshEntryQualifies(d: Data, key: string, user: string, name: string, now: int, other: string, later: int)
    requires IsTrue(d, PresenceField(user, "online")) && user != other
    ensures (var after := Apply(d, PoolEntryOps(key, user, name, now));
      Qualifies(after, OnlineUsers(after, other), key, later) <==> later - now < PRESENCE_TIMEOUT)
  {
    PoolEntryReads(d, key, user, name, now, PresenceField(user, "online"));
  }

  // ------------------------------------------------------------- the room

  /** The leaves of the room map `createChatRoom` builds; a missing partner name is left out. */
  function ChatRoomLeaves(room: string, self: string, selfName: string, partner: string,
                          partnerName: Option<string>, now: int): seq<Op> {
    [Put(ChatField(room, "participant1"), Str(self)),
     Put(ChatField(room, "participant1Name"), Str(selfName)),
     Put(ChatField(room, "participant2"), Str(partner)),
     Put(ChatField(room, "createdAt"), Int(now)),
     Put(ChatField(room, "active"), Bool(true)),
     Put(ParticipantPath(room, self), Bool(true)),
     Put(ParticipantPath(room, partner), Bool(true))] +
    (if partnerName.Some? then [Put(ChatField(room, "participant2Name"), Str(partnerName.value))] else [])
  }

  /** The chat room `createChatRoom` lays out (one map under `chatRooms/<id>`). */
  function ChatRoomDataOps(room: string, self: string, selfName: string, partner: string,
                           partnerName: Option<string>, now: int): seq<Op> {
    SetValue(ChatRoom(room), ChatRoomLeaves(room, self, selfName, partner, partnerName, now))
  }

  /** The pool removals of the same update: the partner's entry, and the caller's own when it has one. */
  function PoolRemovalOps(partnerKey: string, ownKey: Option<string>): seq<Op> {
    [Delete(PoolEntry(partnerKey))] + (if ownKey.Some? then [Delete(PoolEntry(ownKey.value))] else [])
  }

  /** `createChatRoom`'s single multi-path update. */
  function ChatRoomOps(room: string, self: string, selfName: string, partner: string, partnerName: Option<string>,
                       now: int, partnerKey: string, ownKey: Option<string>): (r: seq<Op>)
    ensures forall i :: 0 <= i < |r| ==> Within(ChatRoom(room), r[i].at) || Within(PoolRoot(), r[i].at)
  {
    ChatRoomDataOps(room, self, selfName, partner, partnerName, now) + PoolRemovalOps(partnerKey, ownKey)
  }

  /** Tells the names directly below a chat room apart; both presence flags sit below `participants` (5). */
  function RoomLeafCode(name: string): int {
    if name == [] then -1
    else match name[0]
      case 'c' => 3 case 'a' => 4
      case 'p' =>
        if |name| == 12 then (if name[11] == '1' then 0 else if name[11] == '2' then 2 else 5)
        else if |name| == 16 then (if name[11] == '1' then 1 else 7)
        else -1
      case _ => -1
  }

  /** The leaves of the room map reach disjoint subtrees. */
  lemma ChatRoomLeavesDisjoint(room: string, self: string, selfName: string, partner: string,
                               partnerName: Option<string>, now: int)
    requires self != partner
    ensures Disjoint(ChatRoomLeaves(room, self, selfName, partner, partnerName, now))
  {
    var leaves := ChatRoomLeaves(room, self, selfName, partner, partnerName, now);
    forall i | 0 <= i < |leaves|
      ensures |leaves[i].at| >= 3 && RoomLeafCode(leaves[i].at[2]) == (if i == 6 then 5 else i)
      ensures i == 5 ==> |leaves[i].at| == 4 && leaves[i].at[3] == self
      ensures i == 6 ==> |leaves[i].at| == 4 && leaves[i].at[3] == partner
    {
    }
    forall i, j | 0 <= i < |leaves| && 0 <= j < |leaves| && i != j ensures !Within(leaves[i].at, leaves[j].at) {
      if (i == 5 || i == 6) && (j == 5 || j == 6) {
        ApartAt(leaves[i].at, leaves[j].at, 3);
      } else {
        ApartAt(leaves[i].at, leaves[j].at, 2);
      }
    }
  }

  /** What the room part of `createChatRoom`'s update leaves in the room. */
  lemma ChatRoomDataEffect(d: Data, room: string, self: string, selfName: string, partner: string,
                           partnerName: Option<string>, now: int)
    requires self != partner
    ensures (var mid := Apply(d, ChatRoomDataOps(room, self, selfName, partner, partnerName, now));
      GetStr(mid, ChatField(room, "participant1")) == Some(self) &&
      GetStr(mid, ChatField(room, "participant2")) == Some(partner) &&
      IsTrue(mid, ChatField(room, "active")) &&
      IsTrue(mid, ParticipantPath(room, self)) && IsTrue(mid, ParticipantPath(room, partner)))
  {
    var leaves := ChatRoomLeaves(room, self, selfName, partner, partnerName, now);
    ChatRoomLeavesDisjoint(room, self, selfName, partner, partnerName, now);
    SetValueReads(d, ChatRoom(room), leaves, 0);
    SetValueReads(d, ChatRoom(room), leaves, 2);
    SetValueReads(d, ChatRoom(room), leaves, 4);
    SetValueReads(d, ChatRoom(room), leaves, 5);
    SetValueReads(d, ChatRoom(room), leaves, 6);
  }

  /**
   * What `createChatRoom`'s update leaves: the caller as `participant1`, the
   * partner as `participant2`, the room active, both present, and neither
   * pool entry any more.
   */
  lemma ChatRoomEffect(d: Data, room: string, self: string, selfName: string, partner: string,
                       partnerName: Option<string>, now: int, partnerKey: string, ownKey: Option<string>)
    requires self != partner
    ensures (var after := Apply(d, ChatRoomOps(room, self, selfName, partner, partnerName, now, partnerKey, ownKey));
      GetStr(after, ChatField(room, "participant1")) == Some(self) &&
      GetStr(after, ChatField(room, "participant2")) == Some(partner) &&
      IsTrue(after, ChatField(room, "active")) &&
      IsTrue(after, ParticipantPath(room, self)) && IsTrue(after, ParticipantPath(room, partner)) &&
      !Exists(after, PoolEntry(partnerKey)) &&
      (ownKey.Some? ==> !Exists(after, PoolEntry(ownKey.value))))
  {
    var data := ChatRoomDataOps(room, self, selfName, partner, partnerName, now);
    var mid := Apply(d, data);
    ApplyConcat(d, data, PoolRemovalOps(partnerKey, ownKey));
    ChatRoomDataEffect(d, room, self, selfName, partner, partnerName, now);
    PoolRemovalsKeep(mid, partnerKey, ownKey, ChatField(room, "participant1"));
    PoolRemovalsKeep(mid, partnerKey, ownKey, ChatField(room, "participant2"));
    PoolRemovalsKeep(mid, partnerKey, ownKey, ChatField(room, "active"));
    PoolRemovalsKeep(mid, partnerKey, ownKey, ParticipantPath(room, self));
    PoolRemovalsKeep(mid, partnerKey, ownKey, ParticipantPath(room, partner));
    PoolRemovalsClear(mid, partnerKey, ownKey);
  }

  /** The pool removals leave every path under the chat rooms alone. */
  lemma PoolRemovalsKeep(d: Data, partnerKey: string, ownKey: Option<string>, p: Path)
    requires |p| > 0 && p[0] == CHAT_ROOMS_NODE
    ensures Get(Apply(d, PoolRemovalOps(partnerKey, ownKey)), p) == Get(d, p)
  {
    var removals := PoolRemovalOps(partnerKey, ownKey);
    assert forall i :: 0 <= i < |removals| ==> removals[i].at[0] == WAITING_POOL_NODE;
    ApplyFrame(d, removals, p);
  }

  /** The pool removals leave neither entry behind. */
  lemma PoolRemovalsClear(d: Data, partnerKey: string, ownKey: Option<string>)
    ensures !Exists(Apply(d, PoolRemovalOps(partnerKey, ownKey)), PoolEntry(partnerKey))
    ensures ownKey.Some? ==> !Exists(Apply(d, PoolRemovalOps(partnerKey, ownKey)), PoolEntry(ownKey.value))
  {
    var removals := PoolRemovalOps(partnerKey, ownKey);
    DeleteClears(d, removals, 0);
    if ownKey.Some? {
      DeleteClears(d, removals, 1);
    }
  }

  /** The same update touches nothing outside the new room and the two pool entries. */
  lemma ChatRoomFrame(d: Data, room: string, self: string, selfName: string, partner: string,
                      partnerName: Option<string>, now: int, partnerKey: string, ownKey: Option<string>, q: Path)
    requires !Within(ChatRoom(room), q) && !Within(PoolEntry(partnerKey), q)
    requires ownKey.Some? ==> !Within(PoolEntry(ownKey.value), q)
    ensures Get(Apply(d, ChatRoomOps(room, self, selfName, partner, partnerName, now, partnerKey, ownKey)), q) == Get(d, q)
  {
    var ops := ChatRoomOps(room, self, selfName, partner, partnerName, now, partnerKey, ownKey);
    forall i | 0 <= i < |ops| ensures !Within(ops[i].at, q) {
      if Within(ops[i].at, q) && Within(ChatRoom(room), ops[i].at) {
        WithinTrans(ChatRoom(room), ops[i].at, q);
      }
    }
    ApplyFrame(d, ops, q);
  }

  // ------------------------------------------------------------- the sweep

  /**
   * Where `orderByChild(field).endAt(cutoff)` puts a child: a missing value
   * and booleans sort before every number, strings and nested nodes after.
   */
  predicate AtOrBefore(d: Data, p: Path, cutoff: int) {
    if p in d then
      match d[p]
      case Bool(_) => true
      case Int(t) => t <= cutoff
      case Str(_) => false
    else !Exists(d, p)
  }

  /** The pool entries `cleanUpOldEntries` removes. */
  function StalePoolKeys(d: Data, cutoff: int): set<string> {
    set k | k in Children(d, PoolRoot()) && AtOrBefore(d, PoolField(k, "timestamp"), cutoff)
  }

  /** The chat rooms it removes: old enough, and `active` missing or false. */
  function IdleRoomKeys(d: Data, cutoff: int): set<string> {
    set k | k in Children(d, RoomsRoot()) && AtOrBefore(d, ChatField(k, "createdAt"), cutoff) &&
            !IsTrue(d, ChatField(k, "active"))
  }

  /** One `removeValue` per child in `keys`, in whatever order the snapshot lists them. */
  method RemoveChildren(db: Database, node: Path, keys: set<string>)
    modifies db
    ensures db.data == WithoutChildren(old(db.data), node, keys)
  {
    var todo := keys;
    while todo != {}
      invariant todo <= keys
      invariant db.data == WithoutChildren(old(db.data), node, keys - todo)
      decreases todo
    {
      var k :| k in todo;
      RemoveOneMore(old(db.data), node, keys - todo, k);
      db.Write([Delete(node + [k])]);
      assert keys - todo + {k} == keys - (todo - {k});
      todo := todo - {k};
    }
  }

  /** Both halves of `cleanUpOldEntries` with `cutoff = now - 300000`. */
  function SweepResult(d: Data, cutoff: int): (r: Data)
    ensures forall q :: q in r ==> q in d && r[q] == d[q]
  {
    var pool := WithoutChildren(d, PoolRoot(), StalePoolKeys(d, cutoff));
    WithoutChildren(pool, RoomsRoot(), IdleRoomKeys(pool, cutoff))
  }

  /** The pool half leaves every chat-room leaf alone. */
  lemma PoolSweepKeepsRooms(d: Data, cutoff: int, q: Path)
    requires |q| >= 1 && q[0] == CHAT_ROOMS_NODE
    ensures Get(WithoutChildren(d, PoolRoot(), StalePoolKeys(d, cutoff)), q) == Get(d, q)
  {
  }

  /** Two trees that agree on everything under `chatRooms`. */
  ghost predicate SameRooms(a: Data, b: Data) {
    forall q :: |q| >= 1 && q[0] == CHAT_ROOMS_NODE ==> Get(a, q) == Get(b, q)
  }

  /** A path inside a node starts with the node's first key. */
  lemma WithinHead(p: Path, q: Path)
    requires |p| >= 1 && Within(p, q)
    ensures |q| >= 1 && q[0] == p[0]
  {
    assert q[..|p|][0] == q[0];
  }

  /** Trees that agree under `chatRooms` agree on which node there exists. */
  lemma SameRoomsExists(a: Data, b: Data, p: Path)
    requires SameRooms(a, b) && |p| >= 1 && p[0] == CHAT_ROOMS_NODE
    ensures Exists(a, p) ==> Exists(b, p)
  {
    if Exists(a, p) {
      var q :| q in a && Within(p, q);
      WithinHead(p, q);
      assert Get(a, q) == Get(b, q);
    }
  }

  /** Trees that agree under `chatRooms` have the same idle rooms. */
  lemma SameRoomsIdleKeys(a: Data, b: Data, cutoff: int)
    requires SameRooms(a, b) && SameRooms(b, a)
    ensures IdleRoomKeys(a, cutoff) == IdleRoomKeys(b, cutoff)
  {
    forall k ensures k in Children(a, RoomsRoot()) <==> k in Children(b, RoomsRoot()) {
      SameRoomsExists(a, b, ChatRoom(k));
      SameRoomsExists(b, a, ChatRoom(k));
      ChildExists(a, k);
      ChildExists(b, k);
    }
    forall k ensures AtOrBefore(a, ChatField(k, "createdAt"), cutoff) == AtOrBefore(b, ChatField(k, "createdAt"), cutoff) {
      assert Get(a, ChatField(k, "createdAt")) == Get(b, ChatField(k, "createdAt"));
      SameRoomsExists(a, b, ChatField(k, "createdAt"));
      SameRoomsExists(b, a, ChatField(k, "createdAt"));
    }
    forall k ensures IsTrue(a, ChatField(k, "active")) == IsTrue(b, ChatField(k, "active")) {
      assert Get(a, ChatField(k, "active")) == Get(b, ChatField(k, "active"));
    }
  }

  /** A chat room is a child of `chatRooms` exactly when it exists. */
  lemma ChildExists(d: Data, k: string)
    ensures k in Children(d, RoomsRoot()) <==> Exists(d, ChatRoom(k))
  {
    forall q ensures Within(ChatRoom(k), q) <==> |q| > 1 && Within(RoomsRoot(), q) && q[1] == k {
      WithinChild(RoomsRoot(), k, q);
    }
  }

  /** The pool half reads the same rooms the store had. */
  lemma PoolSweepKeepsRoomKeys(d: Data, cutoff: int)
    ensures IdleRoomKeys(WithoutChildren(d, PoolRoot(), StalePoolKeys(d, cutoff)), cutoff) == IdleRoomKeys(d, cutoff)
  {
    var pool := WithoutChildren(d, PoolRoot(), StalePoolKeys(d, cutoff));
    forall q | |q| >= 1 && q[0] == CHAT_ROOMS_NODE ensures Get(pool, q) == Get(d, q) {
      PoolSweepKeepsRooms(d, cutoff, q);
    }
    SameRoomsIdleKeys(pool, d, cutoff);
  }

  /** Every pool entry stamped at or before the cutoff is gone after the sweep. */
  lemma SweepRemovesStaleEntries(d: Data, cutoff: int, k: string)
    requires GetInt(d, PoolField(k, "timestamp")).Some? && GetInt(d, PoolField(k, "timestamp")).value <= cutoff
    ensures !Exists(SweepResult(d, cutoff), PoolEntry(k))
  {
    var q0 := PoolField(k, "timestamp");
    assert q0 in d && Within(PoolRoot(), q0) && |q0| > 1;
    assert k in StalePoolKeys(d, cutoff);
    var pool := WithoutChildren(d, PoolRoot(), StalePoolKeys(d, cutoff));
    WithoutChildrenGone(d, PoolRoot(), StalePoolKeys(d, cutoff), k);
    assert PoolRoot() + [k] == PoolEntry(k);
    if q :| q in SweepResult(d, cutoff) && Within(PoolEntry(k), q) {
      assert false;
    }
  }

  /** An entry stamped after the cutoff keeps every leaf. */
  lemma SweepKeepsFreshEntries(d: Data, cutoff: int, k: string, q: Path)
    requires GetInt(d, PoolField(k, "timestamp")).Some? && GetInt(d, PoolField(k, "timestamp")).value > cutoff
    requires Within(PoolEntry(k), q)
    ensures Get(SweepResult(d, cutoff), q) == Get(d, q)
  {
    WithinChild(PoolRoot(), k, q);
    assert k !in StalePoolKeys(d, cutoff);
  }

  /** An active room is never swept, however old: it keeps every leaf. */
  lemma SweepKeepsActiveRooms(d: Data, cutoff: int, k: string, q: Path)
    requires IsTrue(d, ChatField(k, "active"))
    requires Within(ChatRoom(k), q)
    ensures Get(SweepResult(d, cutoff), q) == Get(d, q)
  {
    WithinChild(RoomsRoot(), k, q);
    PoolSweepKeepsRoomKeys(d, cutoff);
    assert k !in IdleRoomKeys(d, cutoff);
    PoolSweepKeepsRooms(d, cutoff, q);
  }

  /** An old room whose `active` flag is false or missing is gone after the sweep. */
  lemma SweepRemovesIdleRooms(d: Data, cutoff: int, k: string)
    requires GetInt(d, ChatField(k, "createdAt")).Some? && GetInt(d, ChatField(k, "createdAt")).value <= cutoff
    requires !IsTrue(d, ChatField(k, "active"))
    ensures !Exists(SweepResult(d, cutoff), ChatRoom(k))
  {
    var q0 := ChatField(k, "createdAt");
    assert q0 in d && Within(RoomsRoot(), q0) && |q0| > 1;
    assert k in IdleRoomKeys(d, cutoff);
    PoolSweepKeepsRoomKeys(d, cutoff);
    var pool := WithoutChildren(d, PoolRoot(), StalePoolKeys(d, cutoff));
    WithoutChildrenGone(pool, RoomsRoot(), IdleRoomKeys(pool, cutoff), k);
    assert RoomsRoot() + [k] == ChatRoom(k);
  }

  // ------------------------------------------------------------- leaving

  /** `leaveChat`'s write: only the caller's own participant flag, set to false. */
  function LeaveOps(room: string, user: string): seq<Op> {
    [Put(ParticipantPath(room, user), Bool(false))]
  }

  /** `checkAndCleanupRoom`'s test: some participant entry is true. */
  ghost predicate AnyPresent(d: Data, room: string) {
    exists u :: IsTrue(d, ParticipantPath(room, u))
  }

  /** A true participant entry is a child of the participants node. */
  lemma PresentIsChild(d: Data, room: string, u: string)
    requires IsTrue(d, ParticipantPath(room, u))
    ensures u in Children(d, ParticipantsNode(room))
  {
    var q := ParticipantPath(room, u);
    assert q in d && Within(ParticipantsNode(room), q) && |q| > |ParticipantsNode(room)| && q[3] == u;
  }

  /** The loop of `checkAndCleanupRoom` over the participants, stopping at the first one present. */
  method AnyUserPresent(d: Data, room: string) returns (present: bool)
    ensures present <==> AnyPresent(d, room)
  {
    var all := Children(d, ParticipantsNode(room));
    var todo := all;
    present := false;
    while todo != {} && !present
      invariant todo <= all
      invariant present ==> AnyPresent(d, room)
      invariant !present ==> forall u :: u in all - todo ==> !IsTrue(d, ParticipantPath(room, u))
      decreases todo
    {
      var u :| u in todo;
      if IsTrue(d, ParticipantPath(room, u)) {
        present := true;
      }
      todo := todo - {u};
    }
    if !present && AnyPresent(d, room) {
      var u :| IsTrue(d, ParticipantPath(room, u));
      PresentIsChild(d, room, u);
    }
  }

  /** After the caller leaves, somebody is still present exactly when some other participant was. */
  lemma LeaveEffect(d: Data, room: string, user: string)
    ensures AnyPresent(Apply(d, LeaveOps(room, user)), room) <==>
            exists u :: u != user && IsTrue(d, ParticipantPath(room, u))
  {
    var after := Apply(d, LeaveOps(room, user));
    assert after == Without(d, ParticipantPath(room, user))[ParticipantPath(room, user) := Bool(false)];
    forall u | u != user ensures IsTrue(after, ParticipantPath(room, u)) <==> IsTrue(d, ParticipantPath(room, u)) {
      assert !Within(ParticipantPath(room, user), ParticipantPath(room, u)) by {
        assert ParticipantPath(room, u)[..4] == ParticipantPath(room, u);
      }
    }
    assert !IsTrue(after, ParticipantPath(room, user));
  }

  // ------------------------------------------------------------ invitation

  const GAME_NAME := "Stone Paper Scissors"

  /** The text of an invitation message from `name`. */
  function InvitationText(name: string): string {
    MessageList.GAME_EMOJI + " " + name + " " + MessageList.INVITE_PHRASE + " " + GAME_NAME + "!"
  }

  /** The chat list recognises that text as an invitation, whatever the sender's name. */
  lemma InvitationTextIsRecognised(name: string)
    ensures MessageList.LooksLikeInvitation(InvitationText(name))
  {
    var t := InvitationText(name);
    var e := MessageList.GAME_EMOJI;
    var phrase := MessageList.INVITE_PHRASE;
    var head := e + " " + name + " ";
    assert t == head + phrase + (" " + GAME_NAME + "!");
    assert t[0..|e|] == e;
    assert OccursAt(t, e, 0);
    assert t[|head|..|head| + |phrase|] == phrase;
    assert OccursAt(t, phrase, |head|);
  }

  /** The message `createGameInvitationMessage` stores under a fresh push key. */
  function InvitationMessageOps(room: string, key: string, sender: string, senderName: string, now: int,
                                gameRoomId: string): (r: seq<Op>)
    ensures Inside(r, MessageNode(room, key))
  {
    SetValue(MessageNode(room, key),
      [Put(MessageField(room, key, "senderId"), Str(sender)),
       Put(MessageField(room, key, "senderName"), Str(senderName)),
       Put(MessageField(room, key, "text"), Str(InvitationText(senderName))),
       Put(MessageField(room, key, "timestamp"), Int(now)),
       Put(MessageField(room, key, "gameRoomId"), Str(gameRoomId)),
       Put(MessageField(room, key, "invitationStatus"), Str(PENDING)),
       Put(MessageField(room, key, "messageType"), Str(GAME_INVITATION_TYPE))])
  }

  /** Tells the message fields apart by their first letter and length. */
  function MessageFieldCode(name: string): int {
    if name == [] then -1
    else match name[0]
      case 's' => if |name| == 8 then 0 else 1
      case 't' => if |name| == 4 then 2 else 3
      case 'g' => 4 case 'i' => 5 case 'm' => 6
      case _ => -1
  }

  /** The message's fields are distinct leaves. */
  lemma InvitationLeavesDisjoint(room: string, key: string, sender: string, senderName: string, now: int,
                                 gameRoomId: string)
    ensures Disjoint(InvitationMessageOps(room, key, sender, senderName, now, gameRoomId)[1..])
  {
    var leaves := InvitationMessageOps(room, key, sender, senderName, now, gameRoomId)[1..];
    forall i | 0 <= i < |leaves| ensures |leaves[i].at| == 5 && MessageFieldCode(leaves[i].at[4]) == i {
    }
    NumberedDisjoint(leaves, 5, 4, MessageFieldCode);
  }

  /**
   * The stored invitation names its sender and game room and is pending, so
   * on the partner's screen its row offers the enabled "Accept Game" button.
   */
  lemma InvitationMessageStored(d: Data, room: string, key: string, sender: string, senderName: string, now: int,
                                gameRoomId: string, receiver: string)
    requires receiver != sender
    ensures (var after := Apply(d, InvitationMessageOps(room, key, sender, senderName, now, gameRoomId));
      GetStr(after, MessageField(room, key, "senderId")) == Some(sender) &&
      GetStr(after, MessageField(room, key, "gameRoomId")) == Some(gameRoomId) &&
      GetStr(after, MessageField(room, key, "invitationStatus")) == Some(PENDING) &&
      MessageList.InviteButton(sender, GetStr(after, MessageField(room, key, "invitationStatus")), receiver) ==
        MessageList.Shown(MessageList.ACCEPT_LABEL, true))
  {
    var leaves := InvitationMessageOps(room, key, sender, senderName, now, gameRoomId)[1..];
    InvitationLeavesDisjoint(room, key, sender, senderName, now, gameRoomId);
    SetValueReads(d, MessageNode(room, key), leaves, 0);
    SetValueReads(d, MessageNode(room, key), leaves, 4);
    SetValueReads(d, MessageNode(room, key), leaves, 5);
  }

  /** An invitation message leaves the room's `gameInvitation` answer as it was. */
  lemma InvitationMessageKeepsAnswer(d: Data, room: string, key: string, sender: string, senderName: string,
                                     now: int, gameRoomId: string, q: Path)
    requires Within(InvitationNode(room), q)
    ensures Get(Apply(d, InvitationMessageOps(room, key, sender, senderName, now, gameRoomId)), q) == Get(d, q)
  {
    var ops := InvitationMessageOps(room, key, sender, senderName, now, gameRoomId);
    assert forall i :: 0 <= i < |ops| ==> Within(MessageNode(room, key), ops[i].at);
    assert q[..3] == InvitationNode(room);
    ApartAt(MessageNode(room, key), q, 2);
    WriteInside(d, ops, MessageNode(room, key), q);
  }

  /** What the response listener reads from `chatRooms/<room>/gameInvitation`. */
  datatype Answer = Accepted | Declined | TimedOut | Unanswered

  function AnswerOf(d: Data, room: string): (r: Answer)
    ensures !Exists(d, InvitationNode(room)) ==> r == Unanswered
  {
    var status := GetStr(d, InvitationField(room, "status"));
    if status == Some(ACCEPTED) && GetStr(d, InvitationField(room, "acceptedBy")).Some? then Accepted
    else if status == Some(DECLINED) then Declined
    else if status == Some(TIMEOUT) then TimedOut
    else Unanswered
  }

  /** An invitation message sent into a room the listener reads exactly the answer it read before. */
  lemma InvitationMessageKeepsAnswerOf(d: Data, room: string, key: string, sender: string, senderName: string,
                                       now: int, gameRoomId: string)
    ensures AnswerOf(Apply(d, InvitationMessageOps(room, key, sender, senderName, now, gameRoomId)), room) ==
            AnswerOf(d, room)
  {
    InvitationMessageKeepsAnswer(d, room, key, sender, senderName, now, gameRoomId, InvitationField(room, "status"));
    InvitationMessageKeepsAnswer(d, room, key, sender, senderName, now, gameRoomId, InvitationField(room, "acceptedBy"));
  }

  /** `acceptGameInvitation`'s update of the room: status, who accepted, when. */
  function AcceptOps(room: string, user: string, now: int): (r: seq<Op>)
    ensures Inside(r, InvitationNode(room))
  {
    [Put(InvitationField(room, "status"), Str(ACCEPTED)),
     Put(InvitationField(room, "acceptedBy"), Str(user)),
     Put(InvitationField(room, "acceptedAt"), Int(now))]
  }

  /** `declineGameInvitation`'s update, written whatever the state. */
  function DeclineOps(room: string, user: string, now: int): (r: seq<Op>)
    ensures Inside(r, InvitationNode(room))
  {
    [Put(InvitationField(room, "status"), Str(DECLINED)),
     Put(InvitationField(room, "declinedBy"), Str(user)),
     Put(InvitationField(room, "declinedAt"), Int(now))]
  }

  /** The invitation timeout's single write. */
  function TimeoutOps(room: string): (r: seq<Op>)
    ensures Inside(r, InvitationNode(room))
  {
    [Put(InvitationField(room, "status"), Str(TIMEOUT))]
  }

  /** The inviter's listener reads an acceptance as `Accepted`. */
  lemma AcceptIsAccepted(d: Data, room: string, user: string, now: int)
    ensures AnswerOf(Apply(d, AcceptOps(room, user, now)), room) == Accepted
  {
    var ops := AcceptOps(room, user, now);
    assert ops[0].at[3][0] != ops[1].at[3][0] && ops[0].at[3][0] != ops[2].at[3][0];
    assert ops[1].at[3][8] != ops[2].at[3][8];
    assert DistinctPuts(ops);
    PutSurvives(d, ops, 0);
    PutSurvives(d, ops, 1);
  }

  /** ... a decline as `Declined`. */
  lemma DeclineIsDeclined(d: Data, room: string, user: string, now: int)
    ensures AnswerOf(Apply(d, DeclineOps(room, user, now)), room) == Declined
  {
    var ops := DeclineOps(room, user, now);
    assert ops[0].at[3][0] != ops[1].at[3][0] && ops[0].at[3][0] != ops[2].at[3][0];
    assert ops[1].at[3][8] != ops[2].at[3][8];
    assert DistinctPuts(ops);
    PutSurvives(d, ops, 0);
  }

  /** ... and the timeout's write as `TimedOut`. */
  lemma TimeoutIsTimedOut(d: Data, room: string)
    ensures AnswerOf(Apply(d, TimeoutOps(room)), room) == TimedOut
  {
    PutSurvives(d, TimeoutOps(room), 0);
  }

  // ------------------------------------------------------------- game room

  /** The room-level fields of `createGameRoom`'s map. */
  function GameRoomFields(gid: string, chatRoom: string, self: string, now: int): seq<Op> {
    [Put(RoundGame.RoomField(gid, "gameId"), Str(gid)),
     Put(RoundGame.RoomField(gid, "chatRoomId"), Str(chatRoom)),
     Put(RoundGame.RoomField(gid, "createdAt"), Int(now)),
     Put(RoundGame.RoomField(gid, "gameStarted"), Bool(false)),
     Put(RoundGame.RoomField(gid, "gameEnded"), Bool(false)),
     Put(RoundGame.RoomField(gid, "gamePhase"), Str(RoundGame.WAITING_PLAYERS)),
     Put(RoundGame.RoomField(gid, "currentRound"), Int(1)),
     Put(RoundGame.RoomField(gid, "initiatorId"), Str(self))]
  }

  /** Both scores, 0. */
  function GameRoomScores(gid: string, self: string, partner: string): seq<Op> {
    [Put(RoundGame.ScorePath(gid, self), Int(0)), Put(RoundGame.ScorePath(gid, partner), Int(0))]
  }

  /** One player's entry: neither ready nor connected; a missing name is left out, as Firebase drops null values. */
  function GamePlayer(gid: string, user: string, name: Option<string>, now: int): seq<Op> {
    [Put(RoundGame.PlayerField(gid, user, "ready"), Bool(false)),
     Put(RoundGame.PlayerField(gid, user, "connected"), Bool(false)),
     Put(RoundGame.PlayerField(gid, user, "joinedAt"), Int(now))] +
    (if name.Some? then [Put(RoundGame.PlayerField(gid, user, "name"), Str(name.value))] else [])
  }

  function GameRoomLeaves(gid: string, chatRoom: string, self: string, selfName: string, partner: string,
                          partnerName: Option<string>, now: int): seq<Op> {
    GameRoomFields(gid, chatRoom, self, now) + GameRoomScores(gid, self, partner) +
    GamePlayer(gid, self, Some(selfName), now) + GamePlayer(gid, partner, partnerName, now)
  }

  /** `createGameRoom`: one `setValue` of the whole room, the caller as initiator. */
  function GameRoomOps(gid: string, chatRoom: string, self: string, selfName: string, partner: string,
                       partnerName: Option<string>, now: int): (r: seq<Op>)
    ensures Inside(r, RoundGame.Room(gid))
  {
    SetValue(RoundGame.Room(gid), GameRoomLeaves(gid, chatRoom, self, selfName, partner, partnerName, now))
  }

  /** Tells the room-level field names apart by their fifth letter. */
  function FieldCode(c: char): int {
    match c
    case 'I' => 0 case 'R' => 1 case 't' => 2 case 'S' => 3 case 'E' => 4 case 'P' => 5 case 'e' => 6 case 'i' => 7
    case _ => -1
  }

  /** The room-level fields are distinct leaves directly below the room. */
  lemma GameRoomFieldsShape(gid: string, chatRoom: string, self: string, now: int)
    ensures (var f := GameRoomFields(gid, chatRoom, self, now);
      Disjoint(f) && forall i :: 0 <= i < |f| ==> |f[i].at| == 3 && f[i].at[2][0] in {'g', 'c', 'i'})
  {
    var f := GameRoomFields(gid, chatRoom, self, now);
    forall i | 0 <= i < |f| ensures |f[i].at| == 3 && FieldCode(f[i].at[2][4]) == i {
    }
    SameDepthDisjoint(f, 3);
  }

  /** A player's fields are distinct leaves below `players/<user>`. */
  lemma GamePlayerShape(gid: string, user: string, name: Option<string>, now: int)
    ensures (var p := GamePlayer(gid, user, name, now);
      Disjoint(p) && forall i :: 0 <= i < |p| ==> |p[i].at| == 5 && p[i].at[2][0] == 'p' && p[i].at[3] == user)
  {
    var p := GamePlayer(gid, user, name, now);
    forall i | 0 <= i < |p| ensures |p[i].at| == 5 && PlayerFieldCode(p[i].at[4]) == i {
    }
    NumberedDisjoint(p, 5, 4, PlayerFieldCode);
  }

  /** Tells a player's fields apart by their first letter. */
  function PlayerFieldCode(name: string): int {
    if name == [] then -1
    else match name[0]
      case 'r' => 0 case 'c' => 1 case 'j' => 2 case 'n' => 3
      case _ => -1
  }

  /** The room's leaves lie in disjoint subtrees. */
  lemma GameRoomLeavesDisjoint(gid: string, chatRoom: string, self: string, selfName: string, partner: string,
                               partnerName: Option<string>, now: int)
    requires self != partner
    ensures Disjoint(GameRoomLeaves(gid, chatRoom, self, selfName, partner, partnerName, now))
  {
    var f := GameRoomFields(gid, chatRoom, self, now);
    var sc := GameRoomScores(gid, self, partner);
    var p1 := GamePlayer(gid, self, Some(selfName), now);
    var p2 := GamePlayer(gid, partner, partnerName, now);
    GameRoomFieldsShape(gid, chatRoom, self, now);
    GamePlayerShape(gid, self, Some(selfName), now);
    GamePlayerShape(gid, partner, partnerName, now);
    assert sc[0].at[3] != sc[1].at[3];
    SameDepthDisjoint(sc, 4);
    var a := f + sc;
    assert forall i :: 0 <= i < |a| ==> |a[i].at| >= 3 && a[i].at[2][0] != 'p' by {
      forall i | 0 <= i < |a| ensures |a[i].at| >= 3 && a[i].at[2][0] != 'p' {
        if i >= |f| {
          assert a[i] == sc[i - |f|];
        }
      }
    }
    forall i, j | 0 <= i < |f| && 0 <= j < |sc| ensures !Within(f[i].at, sc[j].at) && !Within(sc[j].at, f[i].at) {
      ApartAt(f[i].at, sc[j].at, 2);
    }
    DisjointJoin(f, sc);
    forall i, j | 0 <= i < |a| && 0 <= j < |p1| ensures !Within(a[i].at, p1[j].at) && !Within(p1[j].at, a[i].at) {
      ApartAt(a[i].at, p1[j].at, 2);
    }
    DisjointJoin(a, p1);
    var b := a + p1;
    forall i, j | 0 <= i < |b| && 0 <= j < |p2| ensures !Within(b[i].at, p2[j].at) && !Within(p2[j].at, b[i].at) {
      if i < |a| {
        assert b[i] == a[i];
        ApartAt(b[i].at, p2[j].at, 2);
      } else {
        assert b[i] == p1[i - |a|];
        ApartAt(b[i].at, p2[j].at, 3);
      }
    }
    DisjointJoin(b, p2);
  }

  /** Each leaf of the new room reads back. */
  lemma GameRoomReads(d: Data, gid: string, chatRoom: string, self: string, selfName: string, partner: string,
                      partnerName: Option<string>, now: int, k: nat)
    requires self != partner
    requires k < |GameRoomLeaves(gid, chatRoom, self, selfName, partner, partnerName, now)|
    ensures (var leaf := GameRoomLeaves(gid, chatRoom, self, selfName, partner, partnerName, now)[k];
      Get(Apply(d, GameRoomOps(gid, chatRoom, self, selfName, partner, partnerName, now)), leaf.at) == Some(leaf.v))
  {
    GameRoomLeavesDisjoint(gid, chatRoom, self, selfName, partner, partnerName, now);
    SetValueReads(d, RoundGame.Room(gid), GameRoomLeaves(gid, chatRoom, self, selfName, partner, partnerName, now), k);
  }

  /** In particular each room-level field and each score reads back. */
  lemma GameRoomFieldReads(d: Data, gid: string, chatRoom: string, self: string, selfName: string, partner: string,
                           partnerName: Option<string>, now: int, k: nat)
    requires self != partner && k < 10
    ensures (var leaf := (GameRoomFields(gid, chatRoom, self, now) + GameRoomScores(gid, self, partner))[k];
      Get(Apply(d, GameRoomOps(gid, chatRoom, self, selfName, partner, partnerName, now)), leaf.at) == Some(leaf.v))
  {
    var leaves := GameRoomLeaves(gid, chatRoom, self, selfName, partner, partnerName, now);
    var a := GameRoomFields(gid, chatRoom, self, now) + GameRoomScores(gid, self, partner);
    assert leaves[k] == a[k];
    GameRoomReads(d, gid, chatRoom, self, selfName, partner, partnerName, now, k);
  }

  /** The new room's state fields: waiting for players, round 1, neither started nor ended, the caller as initiator. */
  lemma GameRoomState(d: Data, gid: string, chatRoom: string, self: string, selfName: string, partner: string,
                      partnerName: Option<string>, now: int)
    requires self != partner
    ensures (var after := Apply(d, GameRoomOps(gid, chatRoom, self, selfName, partner, partnerName, now));
      GetStr(after, RoundGame.RoomField(gid, "gamePhase")) == Some(RoundGame.WAITING_PLAYERS) &&
      GetInt(after, RoundGame.RoomField(gid, "currentRound")) == Some(1) &&
      GetBool(after, RoundGame.RoomField(gid, "gameStarted")) == Some(false) &&
      GetBool(after, RoundGame.RoomField(gid, "gameEnded")) == Some(false) &&
      GetStr(after, RoundGame.RoomField(gid, "initiatorId")) == Some(self) &&
      GetInt(after, RoundGame.ScorePath(gid, self)) == Some(0) &&
      GetInt(after, RoundGame.ScorePath(gid, partner)) == Some(0))
  {
    GameRoomFieldReads(d, gid, chatRoom, self, selfName, partner, partnerName, now, 3);
    GameRoomFieldReads(d, gid, chatRoom, self, selfName, partner, partnerName, now, 4);
    GameRoomFieldReads(d, gid, chatRoom, self, selfName, partner, partnerName, now, 5);
    GameRoomFieldReads(d, gid, chatRoom, self, selfName, partner, partnerName, now, 6);
    GameRoomFieldReads(d, gid, chatRoom, self, selfName, partner, partnerName, now, 7);
    GameRoomFieldReads(d, gid, chatRoom, self, selfName, partner, partnerName, now, 8);
    GameRoomFieldReads(d, gid, chatRoom, self, selfName, partner, partnerName, now, 9);
  }

  /** Both players' entries: present, neither ready nor connected. */
  lemma GameRoomPlayers(d: Data, gid: string, chatRoom: string, self: string, selfName: string, partner: string,
                        partnerName: Option<string>, now: int)
    requires self != partner
    ensures (var after := Apply(d, GameRoomOps(gid, chatRoom, self, selfName, partner, partnerName, now));
      GetBool(after, RoundGame.PlayerField(gid, self, "ready")) == Some(false) &&
      GetBool(after, RoundGame.PlayerField(gid, self, "connected")) == Some(false) &&
      GetBool(after, RoundGame.PlayerField(gid, partner, "ready")) == Some(false) &&
      GetBool(after, RoundGame.PlayerField(gid, partner, "connected")) == Some(false))
  {
    var leaves := GameRoomLeaves(gid, chatRoom, self, selfName, partner, partnerName, now);
    var p1 := GamePlayer(gid, self, Some(selfName), now);
    var p2 := GamePlayer(gid, partner, partnerName, now);
    GameRoomReads(d, gid, chatRoom, self, selfName, partner, partnerName, now, 10);
    GameRoomReads(d, gid, chatRoom, self, selfName, partner, partnerName, now, 11);
    GameRoomReads(d, gid, chatRoom, self, selfName, partner, partnerName, now, 14);
    GameRoomReads(d, gid, chatRoom, self, selfName, partner, partnerName, now, 15);
    assert leaves[10] == p1[0] && leaves[11] == p1[1] && leaves[14] == p2[0] && leaves[15] == p2[1];
  }

  /** The only leaves of the new room under `players` are the caller's and the partner's. */
  lemma GameRoomPlayerLeaf(gid: string, chatRoom: string, self: string, selfName: string, partner: string,
                           partnerName: Option<string>, now: int, i: nat)
    requires i < |GameRoomLeaves(gid, chatRoom, self, selfName, partner, partnerName, now)|
    requires (var at := GameRoomLeaves(gid, chatRoom, self, selfName, partner, partnerName, now)[i].at;
      |at| > 3 && at[2] == "players")
    ensures (var at := GameRoomLeaves(gid, chatRoom, self, selfName, partner, partnerName, now)[i].at;
      at[3] == self || at[3] == partner)
  {
    var leaves := GameRoomLeaves(gid, chatRoom, self, selfName, partner, partnerName, now);
    var f := GameRoomFields(gid, chatRoom, self, now);
    var sc := GameRoomScores(gid, self, partner);
    var p1 := GamePlayer(gid, self, Some(selfName), now);
    var p2 := GamePlayer(gid, partner, partnerName, now);
    GameRoomFieldsShape(gid, chatRoom, self, now);
    GamePlayerShape(gid, self, Some(selfName), now);
    GamePlayerShape(gid, partner, partnerName, now);
    if i < |f| {
      assert false;
    } else if i < |f| + |sc| {
      assert leaves[i] == sc[i - |f|];
    } else if i < |f| + |sc| + |p1| {
      assert leaves[i] == p1[i - |f| - |sc|];
    } else {
      assert leaves[i] == p2[i - |f| - |sc| - |p1|];
    }
  }

  /** Under `players` the new room holds only the caller and the partner. */
  lemma GameRoomOnlyTwoPlayers(d: Data, gid: string, chatRoom: string, self: string, selfName: string, partner: string,
                               partnerName: Option<string>, now: int, q: Path)
    requires q in Apply(d, GameRoomOps(gid, chatRoom, self, selfName, partner, partnerName, now))
    requires Within(RoundGame.PlayersNode(gid), q) && |q| > 3
    ensures q[3] == self || q[3] == partner
  {
    var leaves := GameRoomLeaves(gid, chatRoom, self, selfName, partner, partnerName, now);
    assert Within(RoundGame.Room(gid), q) by {
      assert q[..2] == q[..3][..2];
    }
    SetValueLeaves(d, RoundGame.Room(gid), leaves, q);
    var i :| 0 <= i < |leaves| && leaves[i].Put? && leaves[i].at == q;
    assert q[2] == "players" by {
      assert q[..3][2] == q[2];
    }
    GameRoomPlayerLeaf(gid, chatRoom, self, selfName, partner, partnerName, now, i);
  }

  // ----------------------------------------- the readiness gate of a new room

  /** The room `createGameRoom` lays out, joined by the initiator's game screen as written. */
  function InitiatorJoined(d: Data, gid: string, chatRoom: string, init: string, initName: string, partner: string,
                           partnerName: Option<string>, now: int, t1: int): Data {
    Apply(Apply(d, GameRoomOps(gid, chatRoom, init, initName, partner, partnerName, now)),
          RoundGame.JoinOps(gid, init, initName, t1, true, 1))
  }

  /**
   * As written: the initiator's game screen only joins, and only the other
   * player marks itself ready, so in a room built by `createGameRoom` the
   * initiator's `ready` stays false and the readiness gate never opens,
   * even after both players have joined.
   */
  lemma InitiatorNeverReadyAsWritten(d: Data, gid: string, chatRoom: string, init: string, initName: string,
                                     partner: string, partnerName: Option<string>, partnerJoinName: string,
                                     now: int, t1: int, t2: int)
    requires init != partner
    ensures (var d1 := InitiatorJoined(d, gid, chatRoom, init, initName, partner, partnerName, now, t1);
      var d2 := Apply(Apply(d1, RoundGame.JoinOps(gid, partner, partnerJoinName, t2, false, 1)),
                      RoundGame.ReadyOps(gid, partner));
      !RoundGame.CanStart(d2, gid))
  {
    var d0 := Apply(d, GameRoomOps(gid, chatRoom, init, initName, partner, partnerName, now));
    var d1 := InitiatorJoined(d, gid, chatRoom, init, initName, partner, partnerName, now, t1);
    var d2 := Apply(Apply(d1, RoundGame.JoinOps(gid, partner, partnerJoinName, t2, false, 1)),
                    RoundGame.ReadyOps(gid, partner));
    var r := RoundGame.PlayerField(gid, init, "ready");
    GameRoomPlayers(d, gid, chatRoom, init, initName, partner, partnerName, now);
    OwnJoinKeepsReady(d0, gid, init, initName, t1);
    OtherJoinKeepsReady(d1, gid, partner, partnerJoinName, t2, init);
    assert GetBool(d2, r) == Some(false);
    UnreadyBlocks(d2, gid, init);
  }

  /** A player whose `ready` flag is false keeps the gate shut. */
  lemma UnreadyBlocks(d: Data, gid: string, u: string)
    requires GetBool(d, RoundGame.PlayerField(gid, u, "ready")) == Some(false)
    ensures !RoundGame.CanStart(d, gid)
  {
    var r := RoundGame.PlayerField(gid, u, "ready");
    assert r in d && Within(RoundGame.PlayersNode(gid), r) && |r| > 3;
    assert u in Children(d, RoundGame.PlayersNode(gid));
  }

  /** The initiator's own join, as written, leaves its `ready` flag alone. */
  lemma OwnJoinKeepsReady(d0: Data, gid: string, init: string, initName: string, t1: int)
    ensures (var r := RoundGame.PlayerField(gid, init, "ready");
      Get(Apply(d0, RoundGame.JoinOps(gid, init, initName, t1, true, 1)), r) == Get(d0, r))
  {
    var r := RoundGame.PlayerField(gid, init, "ready");
    var j1 := RoundGame.JoinOps(gid, init, initName, t1, true, 1);
    forall i | 0 <= i < |j1| ensures !Within(j1[i].at, r) {
      if i < 3 {
        ApartAt(j1[i].at, r, 4);
      } else {
        ApartAt(j1[i].at, r, 2);
      }
    }
    ApplyFrame(d0, j1, r);
  }

  /** The other player's join and ready write leave this player's `ready` flag alone. */
  lemma OtherJoinKeepsReady(d1: Data, gid: string, partner: string, partnerJoinName: string, t2: int, init: string)
    requires init != partner
    ensures (var r := RoundGame.PlayerField(gid, init, "ready");
      Get(Apply(Apply(d1, RoundGame.JoinOps(gid, partner, partnerJoinName, t2, false, 1)), RoundGame.ReadyOps(gid, partner)), r)
        == Get(d1, r))
  {
    var r := RoundGame.PlayerField(gid, init, "ready");
    var j2 := RoundGame.JoinOps(gid, partner, partnerJoinName, t2, false, 1) + RoundGame.ReadyOps(gid, partner);
    forall i | 0 <= i < |j2| ensures !Within(j2[i].at, r) {
      ApartAt(j2[i].at, r, 3);
    }
    ApplyConcat(d1, RoundGame.JoinOps(gid, partner, partnerJoinName, t2, false, 1), RoundGame.ReadyOps(gid, partner));
    ApplyFrame(d1, j2, r);
  }

  /** Two distinct players, both ready and connected, and nobody else under `players`: the gate opens. */
  lemma TwoReadyPlayers(d: Data, gid: string, a: string, b: string)
    requires a != b
    requires IsTrue(d, RoundGame.PlayerField(gid, a, "ready")) && IsTrue(d, RoundGame.PlayerField(gid, a, "connected"))
    requires IsTrue(d, RoundGame.PlayerField(gid, b, "ready")) && IsTrue(d, RoundGame.PlayerField(gid, b, "connected"))
    requires forall q :: q in d && Within(RoundGame.PlayersNode(gid), q) && |q| > 3 ==> q[3] == a || q[3] == b
    ensures RoundGame.CanStart(d, gid)
  {
    var node := RoundGame.PlayersNode(gid);
    var ra := RoundGame.PlayerField(gid, a, "ready");
    var rb := RoundGame.PlayerField(gid, b, "ready");
    assert ra in d && Within(node, ra) && |ra| > 3;
    assert rb in d && Within(node, rb) && |rb| > 3;
    var players := Children(d, node);
    assert a in players && b in players;
    forall u | u in players ensures u == a || u == b {
      var q :| q in d && Within(node, q) && |q| > |node| && q[|node|] == u;
    }
    assert players == {a, b};
  }

  /** The room after both corrected joins, initiator first. */
  function BothJoinedCorrected(d: Data, gid: string, chatRoom: string, init: string, initName: string, partner: string,
                               partnerName: Option<string>, partnerJoinName: string, now: int, t1: int, t2: int): Data {
    Apply(Apply(Apply(d, GameRoomOps(gid, chatRoom, init, initName, partner, partnerName, now)),
                RoundGame.JoinOpsCorrected(gid, init, initName, t1, true, 1)),
          RoundGame.JoinOpsCorrected(gid, partner, partnerJoinName, t2, false, 1))
  }

  /** After the corrected joins the initiator is ready and connected. */
  lemma InitiatorReadyCorrected(d: Data, gid: string, chatRoom: string, init: string, initName: string, partner: string,
                                partnerName: Option<string>, partnerJoinName: string, now: int, t1: int, t2: int)
    requires init != partner
    ensures (var d2 := BothJoinedCorrected(d, gid, chatRoom, init, initName, partner, partnerName, partnerJoinName, now, t1, t2);
      IsTrue(d2, RoundGame.PlayerField(gid, init, "ready")) && IsTrue(d2, RoundGame.PlayerField(gid, init, "connected")))
  {
    var d0 := Apply(d, GameRoomOps(gid, chatRoom, init, initName, partner, partnerName, now));
    var j1 := RoundGame.JoinOpsCorrected(gid, init, initName, t1, true, 1);
    var d1 := Apply(d0, j1);
    var j2 := RoundGame.JoinOpsCorrected(gid, partner, partnerJoinName, t2, false, 1);
    var r := RoundGame.PlayerField(gid, init, "ready");
    var c := RoundGame.PlayerField(gid, init, "connected");
    assert j1[8].at == r && j1[0].at == c;
    ApplyPut(d0, j1, 8);
    var later := j1[1..];
    forall i | 0 <= i < |later| ensures !Within(later[i].at, c) {
      assert later[i] == j1[i + 1];
      if i < 2 || i == 7 {
        ApartAt(later[i].at, c, 4);
      } else {
        ApartAt(later[i].at, c, 2);
      }
    }
    ApplyPut(d0, j1, 0);
    forall i | 0 <= i < |j2| ensures !Within(j2[i].at, r) && !Within(j2[i].at, c) {
      ApartAt(j2[i].at, r, 3);
      ApartAt(j2[i].at, c, 3);
    }
    ApplyFrame(d1, j2, r);
    ApplyFrame(d1, j2, c);
  }

  /** ... and so is the partner. */
  lemma PartnerReadyCorrected(d1: Data, gid: string, partner: string, partnerJoinName: string, t2: int)
    ensures (var d2 := Apply(d1, RoundGame.JoinOpsCorrected(gid, partner, partnerJoinName, t2, false, 1));
      IsTrue(d2, RoundGame.PlayerField(gid, partner, "ready")) && IsTrue(d2, RoundGame.PlayerField(gid, partner, "connected")))
  {
    var j2 := RoundGame.JoinOpsCorrected(gid, partner, partnerJoinName, t2, false, 1);
    assert forall i, j :: 0 <= i < j < |j2| ==> j2[i].at[4][0] != j2[j].at[4][0];
    assert DistinctPuts(j2);
    PutSurvives(d1, j2, 0);
    PutSurvives(d1, j2, 3);
  }

  /** Only the two players ever appear under `players`. */
  lemma OnlyTwoPlayersCorrected(d: Data, gid: string, chatRoom: string, init: string, initName: string, partner: string,
                                partnerName: Option<string>, partnerJoinName: string, now: int, t1: int, t2: int, q: Path)
    requires q in BothJoinedCorrected(d, gid, chatRoom, init, initName, partner, partnerName, partnerJoinName, now, t1, t2)
    requires Within(RoundGame.PlayersNode(gid), q) && |q| > 3
    ensures q[3] == init || q[3] == partner
  {
    var d0 := Apply(d, GameRoomOps(gid, chatRoom, init, initName, partner, partnerName, now));
    var j1 := RoundGame.JoinOpsCorrected(gid, init, initName, t1, true, 1);
    var d1 := Apply(d0, j1);
    var j2 := RoundGame.JoinOpsCorrected(gid, partner, partnerJoinName, t2, false, 1);
    ApplyKeys(d1, j2, q);
    if q in d1 {
      ApplyKeys(d0, j1, q);
      if q in d0 {
        GameRoomOnlyTwoPlayers(d, gid, chatRoom, init, initName, partner, partnerName, now, q);
      }
    }
  }

  /**
   * Corrected: when both players mark themselves ready after joining, the
   * room `createGameRoom` lays out passes the readiness gate once both have
   * joined.
   */
  lemma BothReadyCanStartCorrected(d: Data, gid: string, chatRoom: string, init: string, initName: string,
                                   partner: string, partnerName: Option<string>, partnerJoinName: string,
                                   now: int, t1: int, t2: int)
    requires init != partner
    ensures RoundGame.CanStart(
      BothJoinedCorrected(d, gid, chatRoom, init, initName, partner, partnerName, partnerJoinName, now, t1, t2), gid)
  {
    var d1 := Apply(Apply(d, GameRoomOps(gid, chatRoom, init, initName, partner, partnerName, now)),
                    RoundGame.JoinOpsCorrected(gid, init, initName, t1, true, 1));
    var d2 := BothJoinedCorrected(d, gid, chatRoom, init, initName, partner, partnerName, partnerJoinName, now, t1, t2);
    var node := RoundGame.PlayersNode(gid);
    InitiatorReadyCorrected(d, gid, chatRoom, init, initName, partner, partnerName, partnerJoinName, now, t1, t2);
    PartnerReadyCorrected(d1, gid, partner, partnerJoinName, t2);
    forall q | q in d2 && Within(node, q) && |q| > 3 ensures q[3] == init || q[3] == partner {
      OnlyTwoPlayersCorrected(d, gid, chatRoom, init, initName, partner, partnerName, partnerJoinName, now, t1, t2, q);
    }
    TwoReadyPlayers(d2, gid, init, partner);
  }

  // ------------------------------------------- clearing a stale answer

  /** Corrected invitation write: the room's old answer is removed together with the new message. */
  function ClearedInvitationOps(room: string, key: string, sender: string, senderName: string, now: int,
                                gameRoomId: string): seq<Op> {
    [Delete(InvitationNode(room))] + InvitationMessageOps(room, key, sender, senderName, now, gameRoomId)
  }

  /** After the corrected write the listener finds no answer, whatever the room held before. */
  lemma ClearedInvitationUnanswered(d: Data, room: string, key: string, sender: string, senderName: string,
                                    now: int, gameRoomId: string)
    ensures AnswerOf(Apply(d, ClearedInvitationOps(room, key, sender, senderName, now, gameRoomId)), room) == Unanswered
  {
    var ops := ClearedInvitationOps(room, key, sender, senderName, now, gameRoomId);
    forall i | 0 < i < |ops| && ops[i].Put? ensures !Within(ops[0].at, ops[i].at) {
      assert ops[i] == InvitationMessageOps(room, key, sender, senderName, now, gameRoomId)[i - 1];
      ApartAt(ops[0].at, ops[i].at, 2);
    }
    DeleteClears(d, ops, 0);
    var after := Apply(d, ops);
    assert InvitationField(room, "status") !in after by {
      assert Within(InvitationNode(room), InvitationField(room, "status"));
    }
  }

  /** A committed token deduction leaves the room's answer as it was. */
  lemma DeductionKeepsAnswer(d: Data, user: string, cost: int, room: string)
    requires GameTokens.DeductGameTokens(d, Some(user), true, cost).Committed?
    ensures AnswerOf(Apply(d, GameTokens.DeductGameTokens(d, Some(user), true, cost).ops), room) == AnswerOf(d, room)
  {
    var tokens := Ledger.FieldPath(user, GameTokens.FIELD);
    ApartAt(tokens, InvitationField(room, "status"), 0);
    ApartAt(tokens, InvitationField(room, "acceptedBy"), 0);
    Ledger.DeductOnlyOwnField(d, user, GameTokens.FIELD, cost, InvitationField(room, "status"));
    Ledger.DeductOnlyOwnField(d, user, GameTokens.FIELD, cost, InvitationField(room, "acceptedBy"));
  }

  // ------------------------------------------------- marking the message

  const ROOM_CREATED := "room_created"

  function MessagesRoot(room: string): Path {
    [CHAT_ROOMS_NODE, room, MESSAGES_NODE]
  }

  /** `updateInvitationMessageStatus`'s query: the room's messages whose `gameRoomId` is `gid`. */
  function InvitationKeys(d: Data, room: string, gid: string): set<string> {
    set k | k in Children(d, MessagesRoot(room)) && GetStr(d, MessageField(room, k, "gameRoomId")) == Some(gid)
  }

  /** The `invitationStatus` leaves of the messages `keys`. */
  function StatusLeaves(room: string, keys: set<string>): set<Path> {
    set k | k in keys :: MessageField(room, k, "invitationStatus")
  }

  /** `d` with the `invitationStatus` of every message in `keys` replaced by `status`. */
  function WithStatus(d: Data, room: string, keys: set<string>, status: string): Data {
    var leaves := StatusLeaves(room, keys);
    map q | q in d.Keys + leaves && (q in leaves || !(|q| > 5 && q[..5] in leaves)) ::
      if q in leaves then Str(status) else d[q]
  }

  /** Marking no message changes nothing. */
  lemma WithStatusNone(d: Data, room: string, status: string)
    ensures WithStatus(d, room, {}, status) == d
  {
    assert StatusLeaves(room, {}) == {};
  }

  /** One more `setValue(status)` marks one more message. */
  lemma WithStatusOneMore(d: Data, room: string, keys: set<string>, k: string, status: string)
    ensures Apply(WithStatus(d, room, keys, status), [Put(MessageField(room, k, "invitationStatus"), Str(status))]) ==
            WithStatus(d, room, keys + {k}, status)
  {
    var leaf := MessageField(room, k, "invitationStatus");
    var before := WithStatus(d, room, keys, status);
    var ops := [Put(leaf, Str(status))];
    var after := Apply(before, ops);
    var want := WithStatus(d, room, keys + {k}, status);
    var small := StatusLeaves(room, keys);
    var big := StatusLeaves(room, keys + {k});
    assert big == small + {leaf};
    assert after == Apply(Step(before, ops[0]), ops[1..]);
    assert ops[1..] == [];
    assert after == Without(before, leaf)[leaf := Str(status)];
    forall q ensures q in after <==> q in want {
      if q == leaf {
      } else if Within(leaf, q) {
        assert |q| > 5 && q[..5] == leaf;
      } else {
        assert !(|q| > 5 && q[..5] == leaf);
      }
    }
    assert forall q :: q in after ==> after[q] == want[q];
  }

  /** Every marked message reads `status`. */
  lemma WithStatusReads(d: Data, room: string, keys: set<string>, status: string, k: string)
    requires k in keys
    ensures GetStr(WithStatus(d, room, keys, status), MessageField(room, k, "invitationStatus")) == Some(status)
  {
    assert MessageField(room, k, "invitationStatus") in StatusLeaves(room, keys);
  }

  /** Nothing outside the chat rooms changes. */
  lemma WithStatusFrame(d: Data, room: string, keys: set<string>, status: string, q: Path)
    requires |q| >= 1 && q[0] != CHAT_ROOMS_NODE
    ensures Get(WithStatus(d, room, keys, status), q) == Get(d, q)
  {
    var leaves := StatusLeaves(room, keys);
    assert q !in leaves;
    if |q| > 5 {
      assert q[..5][0] == q[0];
      assert q[..5] !in leaves;
    }
  }

  /** A marked invitation no longer offers anybody "Accept Game". */
  lemma RoomCreatedHidesAccept(d: Data, room: string, keys: set<string>, k: string, sender: string, me: string)
    requires k in keys
    ensures MessageList.InviteButton(sender,
      GetStr(WithStatus(d, room, keys, ROOM_CREATED), MessageField(room, k, "invitationStatus")), me) !=
      MessageList.Shown(MessageList.ACCEPT_LABEL, true)
  {
    WithStatusReads(d, room, keys, ROOM_CREATED, k);
    assert ROOM_CREATED != PENDING;
  }

  /**
   * What `createGameRoom` leaves: nothing without a partner id or when the
   * write fails, otherwise the new room and, once it is stored, every
   * invitation message for it marked "room_created".
   */
  function RoomWrite(d: Data, room: string, gid: string, self: string, selfName: string, partner: Option<string>,
                     partnerName: Option<string>, now: int, delivered: bool): Data {
    if partner.Some? && delivered then
      var made := Apply(d, GameRoomOps(gid, room, self, selfName, partner.value, partnerName, now));
      WithStatus(made, room, InvitationKeys(made, room, gid), ROOM_CREATED)
    else d
  }

  /** The marking only touches chat rooms, so the room reads as `createGameRoom` laid it out. */
  lemma RoomWriteKeepsRoom(d: Data, room: string, gid: string, self: string, selfName: string, partner: string,
                           partnerName: Option<string>, now: int, q: Path)
    requires |q| >= 1 && q[0] == RoundGame.GAME_ROOMS_NODE
    ensures Get(RoomWrite(d, room, gid, self, selfName, Some(partner), partnerName, now, true), q) ==
            Get(Apply(d, GameRoomOps(gid, room, self, selfName, partner, partnerName, now)), q)
  {
    var made := Apply(d, GameRoomOps(gid, room, self, selfName, partner, partnerName, now));
    WithStatusFrame(made, room, InvitationKeys(made, room, gid), ROOM_CREATED, q);
  }

  // -------------------------------------------------- the inviter's state

  /** The inviter's flags: `gameInvitationSent`, the pending timeout, the listener and the delayed launch. */
  datatype InviteState = InviteState(sent: bool, timeoutPending: bool, listener: Option<string>, launch: Option<Launch>)

  /**
   * One call of the response listener for game room `gid` on answer `a`:
   * an acceptance removes the listener, cancels the timeout and schedules the
   * launch as initiator; a decline resets the button and cancels the
   * timeout; a timeout resets the button; no answer changes nothing.
   */
  function Respond(s: InviteState, gid: string, a: Answer): (r: InviteState)
    ensures a == Unanswered ==> r == s
    ensures a != Unanswered ==> r.listener.None?
    ensures r.sent <==> s.sent && (a == Accepted || a == Unanswered)
    ensures r.timeoutPending <==> s.timeoutPending && (a == TimedOut || a == Unanswered)
    ensures r.launch == (if a == Accepted then Some(Launch(gid, true)) else s.launch)
  {
    match a
    case Accepted => s.(listener := None, timeoutPending := false, launch := Some(Launch(gid, true)))
    case Declined => s.(sent := false, timeoutPending := false, listener := None)
    case TimedOut => s.(sent := false, listener := None)
    case Unanswered => s
  }

  /**
   * As written, an answer left in the room by an earlier invitation is the
   * first thing the next invitation's listener reads: after a decline, the
   * new invitation is over before the partner has seen it.
   */
  lemma StaleDeclineEndsInvitationAsWritten(d: Data, room: string, partner: string, t: int, key: string,
                                            sender: string, senderName: string, now: int, gid: string,
                                            launch: Option<Launch>)
    ensures (var sent := Apply(Apply(d, DeclineOps(room, partner, t)),
                               InvitationMessageOps(room, key, sender, senderName, now, gid));
      var r := Respond(InviteState(true, true, Some(gid), launch), gid, AnswerOf(sent, room));
      !r.sent && r.listener.None? && !r.timeoutPending)
  {
    var declined := Apply(d, DeclineOps(room, partner, t));
    DeclineIsDeclined(d, room, partner, t);
    InvitationMessageKeepsAnswerOf(declined, room, key, sender, senderName, now, gid);
  }

  /** ... and after an earlier acceptance it launches as initiator although nobody has accepted this one. */
  lemma StaleAcceptLaunchesAsWritten(d: Data, room: string, partner: string, t: int, key: string,
                                     sender: string, senderName: string, now: int, gid: string,
                                     launch: Option<Launch>)
    ensures (var sent := Apply(Apply(d, AcceptOps(room, partner, t)),
                               InvitationMessageOps(room, key, sender, senderName, now, gid));
      var r := Respond(InviteState(true, true, Some(gid), launch), gid, AnswerOf(sent, room));
      r.launch == Some(Launch(gid, true)) && r.listener.None?)
  {
    var accepted := Apply(d, AcceptOps(room, partner, t));
    AcceptIsAccepted(d, room, partner, t);
    InvitationMessageKeepsAnswerOf(accepted, room, key, sender, senderName, now, gid);
  }

  /** With the old answer cleared, the new listener keeps waiting for this invitation's answer, whatever came before. */
  lemma FreshInvitationWaitsCorrected(d: Data, room: string, key: string, sender: string, senderName: string,
                                      now: int, gid: string, launch: Option<Launch>)
    ensures (var sent := Apply(d, ClearedInvitationOps(room, key, sender, senderName, now, gid));
      var s := InviteState(true, true, Some(gid), launch);
      Respond(s, gid, AnswerOf(sent, room)) == s)
  {
    ClearedInvitationUnanswered(d, room, key, sender, senderName, now, gid);
  }

  // ------------------------------------------------------------ the screen

  /** A delayed `startOrientationCheckActivity(gameRoomId, isInitiator)`. */
  datatype Launch = Launch(gameRoomId: string, isInitiator: bool)

  class ChatScreen {
    const uid: string
    const userName: string

    var chatRoomId: Option<string>
    var partnerId: Option<string>
    var partnerName: Option<string>
    var isInWaitingPool: bool
    var isChatActive: bool
    var waitingPoolKey: Option<string>
    /** `presenceRef` is set. */
    var presenceSet: bool
    /** The 45 s matchmaking timeout is posted and not cancelled. */
    var matchTimeoutPending: bool
    /** The two `listenForMatch` listeners are registered. */
    var listeningForMatch: bool
    /** The 3 s retry of `addToWaitingPool` is posted. */
    var retryPending: bool
    var gameInvitationSent: bool
    /** `gameInvitationListener` is registered; the game room its callback would create. */
    var invitationListener: Option<string>
    /** The 60 s invitation timeout is posted and not cancelled. */
    var invitationTimeoutPending: bool
    /** The 1.5 s delayed hand-over to the orientation screen. */
    var launchPending: Option<Launch>
    /** The extras of the last intent started for the orientation screen. */
    var launched: Option<Intent>
    /** `finish()` has been called. */
    var finishing: bool

    /** A chat, an invitation listener or its timeout belongs to a known room; a pool flag to a known entry. */
    predicate Valid()
      reads this
    {
      (isChatActive ==> chatRoomId.Some?) &&
      (invitationListener.Some? ==> chatRoomId.Some?) &&
      (invitationTimeoutPending ==> chatRoomId.Some?) &&
      (isInWaitingPool ==> waitingPoolKey.Some?)
    }

    /** `onCreate`: a missing or blank display name becomes "Anonymous"; an empty user id finishes at once. */
    constructor (uid: string, displayName: Option<string>)
      ensures Valid()
      ensures this.uid == uid && userName == (if Given(displayName) then displayName.value else DEFAULT_CHAT_NAME)
      ensures !IsBlank(userName)
      ensures finishing == (uid == "")
      ensures chatRoomId.None? && partnerId.None? && partnerName.None? && waitingPoolKey.None?
      ensures !isInWaitingPool && !isChatActive && !presenceSet && !matchTimeoutPending && !listeningForMatch
      ensures !retryPending && !gameInvitationSent && invitationListener.None? && !invitationTimeoutPending
      ensures launchPending.None? && launched.None?
    {
      this.uid := uid;
      assert DEFAULT_CHAT_NAME[0] == 'A';
      userName := if Given(displayName) then displayName.value else DEFAULT_CHAT_NAME;
      chatRoomId, partnerId, partnerName, waitingPoolKey := None, None, None, None;
      isInWaitingPool, isChatActive, presenceSet, matchTimeoutPending, listeningForMatch := false, false, false, false, false;
      retryPending, gameInvitationSent, invitationListener, invitationTimeoutPending := false, false, None, false;
      launchPending, launched := None, None;
      finishing := uid == "";
    }

    /** `setupUserPresence`. */
    method SetupUserPresence(db: Database, now: int)
      requires Valid()
      modifies this`presenceSet, db
      ensures Valid() && presenceSet
      ensures db.data == Apply(old(db.data), PresenceOps(uid, userName, now))
    {
      db.Write(PresenceOps(uid, userName, now));
      presenceSet := true;
    }

    /**
     * `enterWaitingPool`: the sweep and the 45 s timeout.  The partner search
     * it starts answers later, as `FindRandomOnlinePartner`.
     */
    method EnterWaitingPool(db: Database, now: int)
      requires Valid()
      modifies this`matchTimeoutPending, db
      ensures Valid() && matchTimeoutPending
      ensures db.data == SweepResult(old(db.data), now - STALE_AGE)
    {
      CleanUpOldEntries(db, now);
      matchTimeoutPending := true;
    }

    /** `cleanUpOldEntries`: both sweeps with `cutoff = now - 300000`. */
    method CleanUpOldEntries(db: Database, now: int)
      modifies db
      ensures db.data == SweepResult(old(db.data), now - STALE_AGE)
    {
      var cutoff := now - STALE_AGE;
      RemoveChildren(db, PoolRoot(), StalePoolKeys(db.data, cutoff));
      RemoveChildren(db, RoomsRoot(), IdleRoomKeys(db.data, cutoff));
    }

    /** Every other user whose presence says online: the loop over `findRandomOnlinePartner`'s snapshot. */
    method CollectOnlineUsers(d: Data) returns (online: set<string>)
      ensures online == OnlineUsers(d, uid)
    {
      OnlineIsPresenceChild(d);
      var all := Children(d, PresenceRoot());
      var todo := all;
      online := {};
      while todo != {}
        invariant todo <= all
        invariant online == set u | u in all - todo && u != uid && IsTrue(d, PresenceField(u, "online"))
        decreases todo
      {
        var u :| u in todo;
        if u != uid && IsTrue(d, PresenceField(u, "online")) {
          online := online + {u};
        }
        todo := todo - {u};
      }
    }

    /**
     * `addToWaitingPool`: an empty user id finishes the screen; otherwise the
     * entry goes under the fresh push key `key`, and once the write is
     * acknowledged (`delivered`) the screen is in the pool and listens for a
     * match; a failed write schedules the 3 s retry.
     */
    method AddToWaitingPool(db: Database, key: string, now: int, delivered: bool)
      requires Valid()
      modifies this`finishing, this`waitingPoolKey, this`isInWaitingPool, this`listeningForMatch, this`retryPending, db
      ensures Valid()
      ensures uid == "" ==> (finishing && db.data == old(db.data) && waitingPoolKey == old(waitingPoolKey) &&
        isInWaitingPool == old(isInWaitingPool) && listeningForMatch == old(listeningForMatch) &&
        retryPending == old(retryPending))
      ensures uid != "" ==> finishing == old(finishing) && waitingPoolKey == Some(key)
      ensures uid != "" && delivered ==> (db.data == Apply(old(db.data), PoolEntryOps(key, uid, userName, now)) &&
        isInWaitingPool && listeningForMatch && retryPending == old(retryPending))
      ensures uid != "" && !delivered ==> (db.data == old(db.data) && retryPending &&
        isInWaitingPool == old(isInWaitingPool) && listeningForMatch == old(listeningForMatch))
    {
      if uid == "" {
        finishing := true;
        return;
      }
      waitingPoolKey := Some(key);
      if delivered {
        db.Write(PoolEntryOps(key, uid, userName, now));
        isInWaitingPool := true;
        listeningForMatch := true;
      } else {
        retryPending := true;
      }
    }

    /** The retry of `handleWaitingPoolError`: only while neither chatting nor in the pool. */
    method OnRetry(db: Database, key: string, now: int, delivered: bool)
      requires Valid() && retryPending
      modifies this`finishing, this`waitingPoolKey, this`isInWaitingPool, this`listeningForMatch, this`retryPending, db
      ensures Valid()
      ensures old(isChatActive || isInWaitingPool) ==> (!retryPending && db.data == old(db.data) &&
        waitingPoolKey == old(waitingPoolKey) && isInWaitingPool == old(isInWaitingPool) &&
        listeningForMatch == old(listeningForMatch) && finishing == old(finishing))
      ensures !old(isChatActive || isInWaitingPool) && uid != "" ==> (waitingPoolKey == Some(key) &&
        (delivered ==> (db.data == Apply(old(db.data), PoolEntryOps(key, uid, userName, now)) &&
          isInWaitingPool && listeningForMatch && !retryPending)) &&
        (!delivered ==> db.data == old(db.data) && retryPending))
    {
      retryPending := false;
      if !isChatActive && !isInWaitingPool {
        AddToWaitingPool(db, key, now, delivered);
      }
    }

    /** `removeFromWaitingPool`: only while in the pool with a key; the flag drops once the removal is acknowledged. */
    method RemoveFromWaitingPool(db: Database, delivered: bool)
      requires Valid()
      modifies this`isInWaitingPool, db
      ensures Valid()
      ensures !(old(isInWaitingPool) && delivered) ==> db.data == old(db.data) && isInWaitingPool == old(isInWaitingPool)
      ensures old(isInWaitingPool) && delivered ==> (!isInWaitingPool &&
        db.data == Apply(old(db.data), [Delete(PoolEntry(waitingPoolKey.value))]) &&
        !Exists(db.data, PoolEntry(waitingPoolKey.value)))
      ensures forall q :: |q| >= 1 && q[0] == USER_PRESENCE_NODE ==> Get(db.data, q) == Get(old(db.data), q)
    {
      if !isInWaitingPool || waitingPoolKey.None? {
        return;
      }
      if delivered {
        var ops := [Delete(PoolEntry(waitingPoolKey.value))];
        ghost var d := db.data;
        DeleteClears(d, ops, 0);
        forall q | |q| >= 1 && q[0] == USER_PRESENCE_NODE ensures Get(Apply(d, ops), q) == Get(d, q) {
          OtherRootUntouched(d, ops, WAITING_POOL_NODE, q);
        }
        db.Write(ops);
        isInWaitingPool := false;
      }
    }

    /** The 45 s matchmaking timeout: still waiting and not chatting, so leave the pool and finish. */
    method OnMatchTimeout(db: Database, delivered: bool)
      requires Valid() && matchTimeoutPending
      modifies this`matchTimeoutPending, this`isInWaitingPool, this`finishing, db
      ensures Valid() && !matchTimeoutPending
      ensures finishing <==> old(finishing) || (old(isInWaitingPool) && !isChatActive)
      ensures !(old(isInWaitingPool) && !isChatActive) ==> db.data == old(db.data) && isInWaitingPool == old(isInWaitingPool)
      ensures old(isInWaitingPool) && !isChatActive && delivered ==> (!isInWaitingPool &&
        db.data == Apply(old(db.data), [Delete(PoolEntry(waitingPoolKey.value))]))
    {
      matchTimeoutPending := false;
      if isInWaitingPool && !isChatActive {
        RemoveFromWaitingPool(db, delivered);
        finishing := true;
      }
    }

    /**
     * `startChat`: chatting, out of the pool, the matchmaking timeout
     * cancelled.  Its own `removeFromWaitingPool` comes after the pool flag
     * has been cleared, so it removes nothing.
     */
    method StartChat(db: Database)
      requires Valid() && chatRoomId.Some?
      modifies this`isChatActive, this`isInWaitingPool, this`matchTimeoutPending, db
      ensures Valid()
      ensures isChatActive && !isInWaitingPool && !matchTimeoutPending && db.data == old(db.data)
    {
      isChatActive := true;
      isInWaitingPool := false;
      matchTimeoutPending := false;
      RemoveFromWaitingPool(db, true);
    }

    /**
     * `createChatRoom` with the push key `roomKey`: one update creating the
     * room and removing the partner's pool entry and the caller's own, then
     * the chat starts; a failed update finishes the screen.
     */
    method CreateChatRoom(db: Database, partnerKey: string, roomKey: string, now: int, delivered: bool)
      requires Valid() && partnerId.Some?
      modifies this`chatRoomId, this`finishing, this`isChatActive, this`isInWaitingPool, this`matchTimeoutPending, db
      ensures Valid() && chatRoomId == Some(roomKey)
      ensures delivered ==> (isChatActive && !isInWaitingPool && !matchTimeoutPending && finishing == old(finishing) &&
        db.data == Apply(old(db.data), ChatRoomOps(roomKey, uid, userName, partnerId.value, partnerName, now,
                                                   partnerKey, waitingPoolKey)))
      ensures !delivered ==> (finishing && db.data == old(db.data) && isChatActive == old(isChatActive) &&
        isInWaitingPool == old(isInWaitingPool) && matchTimeoutPending == old(matchTimeoutPending))
    {
      chatRoomId := Some(roomKey);
      if delivered {
        db.Write(ChatRoomOps(roomKey, uid, userName, partnerId.value, partnerName, now, partnerKey, waitingPoolKey));
        StartChat(db);
      } else {
        finishing := true;
      }
    }

    /**
     * `findWaitingOnlineUsers` on the pool snapshot `poolOrder` (`poolRead`
     * false: the read failed): the candidates in snapshot order, one of them
     * drawn with the random index `draw`; a claimed partner with a non-empty
     * id gets a new chat room, otherwise the caller joins the pool.  Returns
     * the partner's pool key when a room was attempted.
     */
    method FindWaitingOnlineUsers(db: Database, online: set<string>, poolRead: bool, poolOrder: seq<string>, draw: nat,
                                  roomKey: string, ownKey: string, now: int, roomDelivered: bool, entryDelivered: bool)
      returns (partnerKey: Option<string>)
      requires Valid() && uid !in online
      modifies this`finishing, this`waitingPoolKey, this`isInWaitingPool, this`listeningForMatch, this`retryPending,
               this`chatRoomId, this`partnerId, this`partnerName, this`isChatActive, this`matchTimeoutPending, db
      ensures Valid()
      ensures (var cands := Candidates(old(db.data), online, poolOrder, now);
        (!poolRead || cands == [] ==> partnerKey.None?) &&
        (partnerKey.Some? ==> (
          partnerKey.value == cands[draw % |cands|] && Qualifies(old(db.data), online, partnerKey.value, now) &&
          partnerId == GetStr(old(db.data), PoolField(partnerKey.value, "userId")) &&
          partnerName == GetStr(old(db.data), PoolField(partnerKey.value, "userName")) &&
          partnerId.value != uid && partnerId.value != "" && chatRoomId == Some(roomKey) &&
          (roomDelivered ==> (isChatActive &&
            db.data == Apply(old(db.data), ChatRoomOps(roomKey, uid, userName, partnerId.value, partnerName, now,
                                                       partnerKey.value, old(waitingPoolKey))))) &&
          (!roomDelivered ==> finishing && db.data == old(db.data)))))
      ensures partnerKey.None? ==> (chatRoomId == old(chatRoomId) && isChatActive == old(isChatActive) &&
        (uid != "" ==> (waitingPoolKey == Some(ownKey) &&
          (entryDelivered ==> (isInWaitingPool && listeningForMatch &&
            db.data == Apply(old(db.data), PoolEntryOps(ownKey, uid, userName, now)))) &&
          (!entryDelivered ==> retryPending && db.data == old(db.data)))))
    {
      partnerKey := None;
      if !poolRead {
        AddToWaitingPool(db, ownKey, now, entryDelivered);
        return;
      }
      var waiting := CollectCandidates(db.data, online, poolOrder, now);
      if waiting == [] {
        AddToWaitingPool(db, ownKey, now, entryDelivered);
        return;
      }
      var chosen := waiting[draw % |waiting|];
      assert Qualifies(db.data, online, chosen, now);
      partnerId := GetStr(db.data, PoolField(chosen, "userId"));
      partnerName := GetStr(db.data, PoolField(chosen, "userName"));
      if partnerId.Some? && partnerId.value != "" {
        partnerKey := Some(chosen);
        CreateChatRoom(db, chosen, roomKey, now, roomDelivered);
      } else {
        AddToWaitingPool(db, ownKey, now, entryDelivered);
      }
    }

    /**
     * `findRandomOnlinePartner`: the other online users (`presenceRead`
     * false: the query failed); with none, the caller joins the pool,
     * otherwise the pool is searched.
     */
    method FindRandomOnlinePartner(db: Database, presenceRead: bool, poolRead: bool, poolOrder: seq<string>, draw: nat,
                                   roomKey: string, ownKey: string, now: int, roomDelivered: bool, entryDelivered: bool)
      returns (partnerKey: Option<string>)
      requires Valid()
      modifies this`finishing, this`waitingPoolKey, this`isInWaitingPool, this`listeningForMatch, this`retryPending,
               this`chatRoomId, this`partnerId, this`partnerName, this`isChatActive, this`matchTimeoutPending, db
      ensures Valid()
      ensures (!presenceRead || OnlineUsers(old(db.data), uid) == {}) ==> partnerKey.None?
      ensures partnerKey.Some? ==> (
        Qualifies(old(db.data), OnlineUsers(old(db.data), uid), partnerKey.value, now) &&
        partnerKey.value in poolOrder && partnerId.Some? && partnerId.value != uid &&
        IsTrue(old(db.data), PresenceField(partnerId.value, "online")) && chatRoomId == Some(roomKey) &&
        (roomDelivered ==> (isChatActive &&
          db.data == Apply(old(db.data), ChatRoomOps(roomKey, uid, userName, partnerId.value, partnerName, now,
                                                     partnerKey.value, old(waitingPoolKey))))))
      ensures partnerKey.None? ==> (chatRoomId == old(chatRoomId) && isChatActive == old(isChatActive) &&
        (uid != "" && entryDelivered ==> (isInWaitingPool && listeningForMatch &&
          db.data == Apply(old(db.data), PoolEntryOps(ownKey, uid, userName, now)))))
    {
      if !presenceRead {
        AddToWaitingPool(db, ownKey, now, entryDelivered);
        return None;
      }
      var online := CollectOnlineUsers(db.data);
      if online == {} {
        AddToWaitingPool(db, ownKey, now, entryDelivered);
        return None;
      }
      partnerKey := FindWaitingOnlineUsers(db, online, poolRead, poolOrder, draw, roomKey, ownKey, now,
                                           roomDelivered, entryDelivered);
    }

    /**
     * One of the two `listenForMatch` listeners reporting `room`, in which the
     * caller is `participant1` (`asFirst`) or `participant2`: when not yet
     * chatting, the partner is the other participant and the chat starts.
     */
    method OnMatch(db: Database, room: string, asFirst: bool)
      requires Valid() && listeningForMatch
      requires GetStr(db.data, ChatField(room, if asFirst then "participant1" else "participant2")) == Some(uid)
      modifies this`chatRoomId, this`partnerId, this`partnerName, this`isChatActive, this`isInWaitingPool,
               this`matchTimeoutPending, db
      ensures Valid() && isChatActive && db.data == old(db.data)
      ensures old(isChatActive) ==> (chatRoomId == old(chatRoomId) && partnerId == old(partnerId) &&
        partnerName == old(partnerName) && isInWaitingPool == old(isInWaitingPool) &&
        matchTimeoutPending == old(matchTimeoutPending))
      ensures !old(isChatActive) ==> (chatRoomId == Some(room) && !isInWaitingPool && !matchTimeoutPending &&
        partnerId == GetStr(db.data, ChatField(room, if asFirst then "participant2" else "participant1")) &&
        partnerName == GetStr(db.data, ChatField(room, if asFirst then "participant2Name" else "participant1Name")))
    {
      if isChatActive {
        return;
      }
      chatRoomId := Some(room);
      partnerId := GetStr(db.data, ChatField(room, if asFirst then "participant2" else "participant1"));
      partnerName := GetStr(db.data, ChatField(room, if asFirst then "participant2Name" else "participant1Name"));
      StartChat(db);
    }

    /** `checkAndCleanupRoom`: the room is deleted when no participant entry is true. */
    method CheckAndCleanupRoom(db: Database, delivered: bool)
      modifies db
      ensures chatRoomId.None? ==> db.data == old(db.data)
      ensures chatRoomId.Some? ==> (db.data ==
        (if !AnyPresent(old(db.data), chatRoomId.value) && delivered
         then Apply(old(db.data), [Delete(ChatRoom(chatRoomId.value))]) else old(db.data)))
      ensures chatRoomId.Some? && !AnyPresent(old(db.data), chatRoomId.value) && delivered ==> (
        !Exists(db.data, ChatRoom(chatRoomId.value)))
      ensures forall q :: |q| >= 1 && q[0] == USER_PRESENCE_NODE ==> Get(db.data, q) == Get(old(db.data), q)
    {
      if chatRoomId.None? {
        return;
      }
      var room := chatRoomId.value;
      var present := AnyUserPresent(db.data, room);
      if !present && delivered {
        var ops := [Delete(ChatRoom(room))];
        ghost var d := db.data;
        DeleteClears(d, ops, 0);
        forall q | |q| >= 1 && q[0] == USER_PRESENCE_NODE ensures Get(Apply(d, ops), q) == Get(d, q) {
          OtherRootUntouched(d, ops, CHAT_ROOMS_NODE, q);
        }
        db.Write(ops);
      }
    }

    /**
     * The store after `leaveChat` from `d`: while chatting, the caller's
     * participant flag, and the room's removal once nobody is left in it.
     */
    ghost function LeaveWrite(d: Data, delivered: bool, removeDelivered: bool): Data
      requires isChatActive ==> chatRoomId.Some?
      reads this`isChatActive, this`chatRoomId
    {
      if !(isChatActive && delivered) then d
      else
        var left := Apply(d, LeaveOps(chatRoomId.value, uid));
        if !AnyPresent(left, chatRoomId.value) && removeDelivered then Apply(left, [Delete(ChatRoom(chatRoomId.value))])
        else left
    }

    /**
     * `leaveChat`: only while chatting; the caller's participant flag becomes
     * false and, once that is acknowledged, the room is deleted if nobody is
     * left in it.
     */
    method LeaveChat(db: Database, delivered: bool, removeDelivered: bool)
      requires Valid()
      modifies db
      ensures db.data == LeaveWrite(old(db.data), delivered, removeDelivered)
      ensures forall q :: |q| >= 1 && q[0] == USER_PRESENCE_NODE ==> Get(db.data, q) == Get(old(db.data), q)
    {
      if chatRoomId.None? || !isChatActive || !delivered {
        return;
      }
      var ops := LeaveOps(chatRoomId.value, uid);
      ghost var d := db.data;
      forall q | |q| >= 1 && q[0] == USER_PRESENCE_NODE ensures Get(Apply(d, ops), q) == Get(d, q) {
        OtherRootUntouched(d, ops, CHAT_ROOMS_NODE, q);
      }
      db.Write(ops);
      CheckAndCleanupRoom(db, removeDelivered);
    }

    /**
     * `onDestroy` after the presence write: leave the chat, drop the
     * invitation listener and both timeouts, and remove the pool entry.
     */
    method TearDown(db: Database, leaveDelivered: bool, removeDelivered: bool, poolDelivered: bool)
      requires Valid()
      modifies this`invitationListener, this`invitationTimeoutPending, this`matchTimeoutPending, this`isInWaitingPool, db
      ensures Valid()
      ensures invitationListener.None? && !invitationTimeoutPending && !matchTimeoutPending
      ensures old(isInWaitingPool) && poolDelivered ==> !isInWaitingPool && !Exists(db.data, PoolEntry(waitingPoolKey.value))
      ensures (var left := LeaveWrite(old(db.data), leaveDelivered, removeDelivered);
        db.data == if old(isInWaitingPool) && poolDelivered then Apply(left, [Delete(PoolEntry(waitingPoolKey.value))]) else left)
      ensures Get(db.data, PresenceField(uid, "online")) == Get(old(db.data), PresenceField(uid, "online"))
    {
      invitationListener := None;
      invitationTimeoutPending := false;
      matchTimeoutPending := false;
      LeaveChat(db, leaveDelivered, removeDelivered);
      RemoveFromWaitingPool(db, poolDelivered);
    }

    /**
     * `onDestroy`: offline presence, leaving the chat, the invitation listener
     * and both timeouts dropped, and the caller's pool entry removed.
     */
    method OnDestroy(db: Database, leaveDelivered: bool, removeDelivered: bool, poolDelivered: bool)
      requires Valid()
      modifies this`invitationListener, this`invitationTimeoutPending, this`matchTimeoutPending, this`isInWaitingPool, db
      ensures Valid()
      ensures invitationListener.None? && !invitationTimeoutPending && !matchTimeoutPending
      ensures presenceSet ==> !IsTrue(db.data, PresenceField(uid, "online"))
      ensures old(isInWaitingPool) && poolDelivered ==> !isInWaitingPool && !Exists(db.data, PoolEntry(waitingPoolKey.value))
      ensures (var offline := if presenceSet then Apply(old(db.data), OfflineOps(uid)) else old(db.data);
        var left := LeaveWrite(offline, leaveDelivered, removeDelivered);
        db.data == if old(isInWaitingPool) && poolDelivered then Apply(left, [Delete(PoolEntry(waitingPoolKey.value))]) else left)
    {
      if presenceSet {
        db.Write(OfflineOps(uid));
        OfflineIsNotOnline(old(db.data), uid, uid + "?");
        assert !IsTrue(db.data, PresenceField(uid, "online")) by {
          assert uid != uid + "?";
        }
      }
      TearDown(db, leaveDelivered, removeDelivered, poolDelivered);
    }

    // --------------------------------------------------------- invitations

    /** The inviter's flags as one value. */
    function Invite(): InviteState
      reads this
    {
      InviteState(gameInvitationSent, invitationTimeoutPending, invitationListener, launchPending)
    }

    /**
     * `createGameRoom(gid)` in the current chat room, the caller as initiator
     * and the partner as the other player; `delivered` is the write's
     * acknowledgement, after which the invitation messages are marked.
     */
    method CreateGameRoom(db: Database, gid: string, now: int, delivered: bool)
      requires chatRoomId.Some?
      modifies db
      ensures db.data == RoomWrite(old(db.data), chatRoomId.value, gid, uid, userName, partnerId, partnerName, now, delivered)
    {
      if partnerId.None? || !delivered {
        return;
      }
      db.Write(GameRoomOps(gid, chatRoomId.value, uid, userName, partnerId.value, partnerName, now));
      UpdateInvitationMessageStatus(db, chatRoomId.value, gid, ROOM_CREATED);
    }

    /** `updateInvitationMessageStatus`: one `setValue(status)` per message the query returns. */
    method UpdateInvitationMessageStatus(db: Database, room: string, gid: string, status: string)
      modifies db
      ensures db.data == WithStatus(old(db.data), room, InvitationKeys(old(db.data), room, gid), status)
    {
      var keys := InvitationKeys(db.data, room, gid);
      ghost var d := db.data;
      var todo := keys;
      ghost var done: set<string> := {};
      WithStatusNone(d, room, status);
      while todo != {}
        invariant done + todo == keys
        invariant db.data == WithStatus(d, room, done, status)
        decreases todo
      {
        var k :| k in todo;
        WithStatusOneMore(d, room, done, k, status);
        db.Write([Put(MessageField(room, k, "invitationStatus"), Str(status))]);
        done := done + {k};
        todo := todo - {k};
      }
    }

    /** One call of the response listener on the current `gameInvitation` node. */
    method OnInvitationResponse(db: Database, now: int, roomDelivered: bool)
      requires Valid() && invitationListener.Some?
      modifies this`gameInvitationSent, this`invitationTimeoutPending, this`invitationListener, this`launchPending, db
      ensures Valid()
      ensures (var a := AnswerOf(old(db.data), chatRoomId.value);
        Invite() == Respond(old(Invite()), old(invitationListener).value, a) &&
        db.data == if a == Accepted
          then RoomWrite(old(db.data), chatRoomId.value, old(invitationListener).value, uid, userName, partnerId,
                         partnerName, now, roomDelivered)
          else old(db.data))
    {
      var gid := invitationListener.value;
      match AnswerOf(db.data, chatRoomId.value)
      case Accepted =>
        invitationListener := None;
        invitationTimeoutPending := false;
        CreateGameRoom(db, gid, now, roomDelivered);
        launchPending := Some(Launch(gid, true));
      case Declined =>
        gameInvitationSent := false;
        invitationTimeoutPending := false;
        invitationListener := None;
      case TimedOut =>
        gameInvitationSent := false;
        invitationListener := None;
      case Unanswered =>
    }

    /** `listenForGameInvitationResponse(gid)`: the listener is registered and called at once on the current value. */
    method ListenForGameInvitationResponse(db: Database, gid: string, now: int, roomDelivered: bool)
      requires Valid() && chatRoomId.Some?
      modifies this`gameInvitationSent, this`invitationTimeoutPending, this`invitationListener, this`launchPending, db
      ensures Valid()
      ensures (var a := AnswerOf(old(db.data), chatRoomId.value);
        Invite() == Respond(old(Invite()).(listener := Some(gid)), gid, a) &&
        db.data == if a == Accepted
          then RoomWrite(old(db.data), chatRoomId.value, gid, uid, userName, partnerId, partnerName, now, roomDelivered)
          else old(db.data))
    {
      invitationListener := Some(gid);
      OnInvitationResponse(db, now, roomDelivered);
    }

    /**
     * The store after `deductTokensAndSendInvite` from `d`: the initiator's
     * deduction (`txDelivered` false: the transaction failed), then the
     * invitation message under push key `key` for the game room `gid`.  As
     * written (`cleared` false) the response listener's first call reads
     * whatever answer the room still holds, and an old "accepted" creates the
     * room at once; corrected (`cleared`) the message's write removes that
     * answer.
     */
    ghost function SendWrite(d: Data, cleared: bool, key: string, gid: string, now: int, txDelivered: bool,
                       messageDelivered: bool, roomDelivered: bool): Data
      requires chatRoomId.Some?
      reads this
    {
      var tx := GameTokens.DeductGameTokens(d, Some(uid), true, GameTokens.GAME_TOKEN_COST_INITIATOR);
      var room := chatRoomId.value;
      if !(tx.Committed? && txDelivered) then d
      else if !messageDelivered then Apply(d, tx.ops)
      else if cleared then Apply(Apply(d, tx.ops), ClearedInvitationOps(room, key, uid, userName, now, gid))
      else
        var sent := Apply(Apply(d, tx.ops), InvitationMessageOps(room, key, uid, userName, now, gid));
        if AnswerOf(d, room) == Accepted then RoomWrite(sent, room, gid, uid, userName, partnerId, partnerName, now, roomDelivered)
        else sent
    }

    /**
     * The inviter's flags after the same calls from flags `s`: a lost message
     * leaves only the timeout armed; a stored one registers the listener,
     * which as written answers at once from the room's old answer.
     */
    function SendState(d: Data, s: InviteState, cleared: bool, gid: string, txDelivered: bool, messageDelivered: bool): InviteState
      requires chatRoomId.Some?
      reads this
    {
      var tx := GameTokens.DeductGameTokens(d, Some(uid), true, GameTokens.GAME_TOKEN_COST_INITIATOR);
      if !(tx.Committed? && txDelivered) then s
      else if !messageDelivered then s.(sent := false, timeoutPending := true)
      else if cleared then InviteState(true, true, Some(gid), s.launch)
      else Respond(InviteState(true, true, Some(gid), s.launch), gid, AnswerOf(d, chatRoomId.value))
    }

    /**
     * `deductTokensAndSendInvite` as written: the deduction, the invitation
     * message, the 60 s timeout, and once the message is stored
     * (`messageDelivered`) the response listener.
     */
    method DeductTokensAndSendInvite(db: Database, key: string, gid: string, now: int, txDelivered: bool,
                                     messageDelivered: bool, roomDelivered: bool)
      requires Valid() && chatRoomId.Some?
      modifies this`gameInvitationSent, this`invitationTimeoutPending, this`invitationListener, this`launchPending, db
      ensures Valid()
      ensures db.data == SendWrite(old(db.data), false, key, gid, now, txDelivered, messageDelivered, roomDelivered)
      ensures Invite() == SendState(old(db.data), old(Invite()), false, gid, txDelivered, messageDelivered)
    {
      var room := chatRoomId.value;
      var tx := GameTokens.DeductGameTokens(db.data, Some(uid), true, GameTokens.GAME_TOKEN_COST_INITIATOR);
      ghost var d := db.data;
      var balance := Ledger.Run(db, tx, txDelivered);
      if balance.None? {
        return;
      }
      DeductionKeepsAnswer(d, uid, GameTokens.GAME_TOKEN_COST_INITIATOR, room);
      gameInvitationSent := true;
      invitationTimeoutPending := true;
      if messageDelivered {
        InvitationMessageKeepsAnswerOf(db.data, room, key, uid, userName, now, gid);
        db.Write(InvitationMessageOps(room, key, uid, userName, now, gid));
        ListenForGameInvitationResponse(db, gid, now, roomDelivered);
      } else {
        gameInvitationSent := false;
      }
    }

    /**
     * The same with the room's old answer removed in the message's write, so
     * the new listener waits for this invitation's answer.
     */
    method DeductTokensAndSendInviteCorrected(db: Database, key: string, gid: string, now: int, txDelivered: bool,
                                              messageDelivered: bool, roomDelivered: bool)
      requires Valid() && chatRoomId.Some?
      modifies this`gameInvitationSent, this`invitationTimeoutPending, this`invitationListener, this`launchPending, db
      ensures Valid()
      ensures db.data == SendWrite(old(db.data), true, key, gid, now, txDelivered, messageDelivered, roomDelivered)
      ensures Invite() == SendState(old(db.data), old(Invite()), true, gid, txDelivered, messageDelivered)
    {
      var room := chatRoomId.value;
      var tx := GameTokens.DeductGameTokens(db.data, Some(uid), true, GameTokens.GAME_TOKEN_COST_INITIATOR);
      var balance := Ledger.Run(db, tx, txDelivered);
      if balance.None? {
        return;
      }
      gameInvitationSent := true;
      invitationTimeoutPending := true;
      if messageDelivered {
        ClearedInvitationUnanswered(db.data, room, key, uid, userName, now, gid);
        db.Write(ClearedInvitationOps(room, key, uid, userName, now, gid));
        ListenForGameInvitationResponse(db, gid, now, roomDelivered);
      } else {
        gameInvitationSent := false;
      }
    }

    /** The token check passes (`fetched` false: the read failed) and the dialog is `confirmed`. */
    predicate InviteGoes(d: Data, fetched: bool, confirmed: bool)
      reads this
    {
      GameTokens.CheckGameTokens(d, Some(uid), GameTokens.GAME_TOKEN_COST_INITIATOR, fetched).Sufficient? && confirmed
    }

    /**
     * `sendGameInvitation`: with enough tokens and the dialog confirmed, the
     * deduction and invitation as written; otherwise only dialogs and toasts.
     */
    method SendGameInvitation(db: Database, fetched: bool, confirmed: bool, key: string, gid: string, now: int,
                              txDelivered: bool, messageDelivered: bool, roomDelivered: bool)
      requires Valid() && chatRoomId.Some?
      modifies this`gameInvitationSent, this`invitationTimeoutPending, this`invitationListener, this`launchPending, db
      ensures Valid()
      ensures (db.data == if InviteGoes(old(db.data), fetched, confirmed)
        then SendWrite(old(db.data), false, key, gid, now, txDelivered, messageDelivered, roomDelivered) else old(db.data))
      ensures (Invite() == if InviteGoes(old(db.data), fetched, confirmed)
        then SendState(old(db.data), old(Invite()), false, gid, txDelivered, messageDelivered) else old(Invite()))
    {
      if InviteGoes(db.data, fetched, confirmed) {
        DeductTokensAndSendInvite(db, key, gid, now, txDelivered, messageDelivered, roomDelivered);
      }
    }

    /** `sendGameInvitation` with the corrected deduction and invitation. */
    method SendGameInvitationCorrected(db: Database, fetched: bool, confirmed: bool, key: string, gid: string, now: int,
                                       txDelivered: bool, messageDelivered: bool, roomDelivered: bool)
      requires Valid() && chatRoomId.Some?
      modifies this`gameInvitationSent, this`invitationTimeoutPending, this`invitationListener, this`launchPending, db
      ensures Valid()
      ensures (db.data == if InviteGoes(old(db.data), fetched, confirmed)
        then SendWrite(old(db.data), true, key, gid, now, txDelivered, messageDelivered, roomDelivered) else old(db.data))
      ensures (Invite() == if InviteGoes(old(db.data), fetched, confirmed)
        then SendState(old(db.data), old(Invite()), true, gid, txDelivered, messageDelivered) else old(Invite()))
    {
      if InviteGoes(db.data, fetched, confirmed) {
        DeductTokensAndSendInviteCorrected(db, key, gid, now, txDelivered, messageDelivered, roomDelivered);
      }
    }

    /** The game button: an invitation only in a chat with a partner, and none while one is out. */
    method OnGameButton(db: Database, fetched: bool, confirmed: bool, key: string, gid: string, now: int,
                        txDelivered: bool, messageDelivered: bool, roomDelivered: bool)
      requires Valid()
      modifies this`gameInvitationSent, this`invitationTimeoutPending, this`invitationListener, this`launchPending, db
      ensures Valid()
      ensures !(isChatActive && partnerId.Some?) || old(gameInvitationSent) ==>
        (db.data == old(db.data) && Invite() == old(Invite()))
      ensures (isChatActive && partnerId.Some? && !old(gameInvitationSent) ==>
        db.data == (if InviteGoes(old(db.data), fetched, confirmed)
          then SendWrite(old(db.data), false, key, gid, now, txDelivered, messageDelivered, roomDelivered) else old(db.data)) &&
        Invite() == (if InviteGoes(old(db.data), fetched, confirmed)
          then SendState(old(db.data), old(Invite()), false, gid, txDelivered, messageDelivered) else old(Invite())))
    {
      if isChatActive && partnerId.Some? && !gameInvitationSent {
        SendGameInvitation(db, fetched, confirmed, key, gid, now, txDelivered, messageDelivered, roomDelivered);
      }
    }

    /** The game button with the corrected invitation. */
    method OnGameButtonCorrected(db: Database, fetched: bool, confirmed: bool, key: string, gid: string, now: int,
                                 txDelivered: bool, messageDelivered: bool, roomDelivered: bool)
      requires Valid()
      modifies this`gameInvitationSent, this`invitationTimeoutPending, this`invitationListener, this`launchPending, db
      ensures Valid()
      ensures !(isChatActive && partnerId.Some?) || old(gameInvitationSent) ==>
        (db.data == old(db.data) && Invite() == old(Invite()))
      ensures (isChatActive && partnerId.Some? && !old(gameInvitationSent) ==>
        db.data == (if InviteGoes(old(db.data), fetched, confirmed)
          then SendWrite(old(db.data), true, key, gid, now, txDelivered, messageDelivered, roomDelivered) else old(db.data)) &&
        Invite() == (if InviteGoes(old(db.data), fetched, confirmed)
          then SendState(old(db.data), old(Invite()), true, gid, txDelivered, messageDelivered) else old(Invite())))
    {
      if isChatActive && partnerId.Some? && !gameInvitationSent {
        SendGameInvitationCorrected(db, fetched, confirmed, key, gid, now, txDelivered, messageDelivered, roomDelivered);
      }
    }

    /** The 60 s invitation timeout: it writes "timeout" only while the response listener is registered. */
    method OnInvitationTimeout(db: Database)
      requires Valid() && invitationTimeoutPending
      modifies this`gameInvitationSent, this`invitationTimeoutPending, this`invitationListener, db
      ensures Valid() && !invitationTimeoutPending && invitationListener.None?
      ensures old(invitationListener).Some? ==>
        (db.data == Apply(old(db.data), TimeoutOps(chatRoomId.value)) && !gameInvitationSent)
      ensures old(invitationListener).None? ==>
        (db.data == old(db.data) && gameInvitationSent == old(gameInvitationSent))
    {
      invitationTimeoutPending := false;
      if invitationListener.Some? {
        db.Write(TimeoutOps(chatRoomId.value));
        gameInvitationSent := false;
        invitationListener := None;
      }
    }

    /** `declineGameInvitation`: written whatever the state of the invitation. */
    method DeclineGameInvitation(db: Database, now: int)
      requires chatRoomId.Some?
      modifies db
      ensures db.data == Apply(old(db.data), DeclineOps(chatRoomId.value, uid, now))
      ensures AnswerOf(db.data, chatRoomId.value) == Declined
    {
      DeclineIsDeclined(db.data, chatRoomId.value, uid, now);
      db.Write(DeclineOps(chatRoomId.value, uid, now));
    }

    /**
     * The store after `acceptGameInvitation(gid)` from `d`: the acceptor's
     * deduction (a failure declines), then the acceptance (`acceptDelivered`),
     * then a read of the game room (`readOk`) that creates it only when it
     * does not exist yet.
     */
    ghost function AcceptWrite(d: Data, gid: string, now: int, txDelivered: bool, acceptDelivered: bool,
                         readOk: bool, roomDelivered: bool): Data
      requires chatRoomId.Some?
      reads this
    {
      var tx := GameTokens.DeductGameTokens(d, Some(uid), true, GameTokens.GAME_TOKEN_COST_ACCEPTOR);
      var room := chatRoomId.value;
      if !(tx.Committed? && txDelivered) then Apply(d, DeclineOps(room, uid, now))
      else if !acceptDelivered then Apply(d, tx.ops)
      else
        var accepted := Apply(Apply(d, tx.ops), AcceptOps(room, uid, now));
        if !readOk || Exists(accepted, RoundGame.Room(gid)) then accepted
        else RoomWrite(accepted, room, gid, uid, userName, partnerId, partnerName, now, roomDelivered)
    }

    /** The acceptance reaches the delayed launch: deduction, acceptance and room read all succeed. */
    predicate AcceptLaunches(d: Data, txDelivered: bool, acceptDelivered: bool, readOk: bool)
      reads this
    {
      GameTokens.DeductGameTokens(d, Some(uid), true, GameTokens.GAME_TOKEN_COST_ACCEPTOR).Committed? &&
      txDelivered && acceptDelivered && readOk
    }

    /** `acceptGameInvitation(gid)`, ending in the delayed launch as non-initiator. */
    method AcceptGameInvitation(db: Database, gid: string, now: int, txDelivered: bool, acceptDelivered: bool,
                                readOk: bool, roomDelivered: bool)
      requires chatRoomId.Some?
      modifies this`launchPending, db
      ensures db.data == AcceptWrite(old(db.data), gid, now, txDelivered, acceptDelivered, readOk, roomDelivered)
      ensures (launchPending == if AcceptLaunches(old(db.data), txDelivered, acceptDelivered, readOk)
        then Some(Launch(gid, false)) else old(launchPending))
    {
      var tx := GameTokens.DeductGameTokens(db.data, Some(uid), true, GameTokens.GAME_TOKEN_COST_ACCEPTOR);
      var balance := Ledger.Run(db, tx, txDelivered);
      if balance.None? {
        DeclineGameInvitation(db, now);
        return;
      }
      if !acceptDelivered {
        return;
      }
      db.Write(AcceptOps(chatRoomId.value, uid, now));
      if !readOk {
        return;
      }
      if !Exists(db.data, RoundGame.Room(gid)) {
        CreateGameRoom(db, gid, now, roomDelivered);
      }
      launchPending := Some(Launch(gid, false));
    }

    /**
     * `handleGameInvitationAccept` on "Accept Game": the acceptor's token
     * check; with enough tokens the dialog's answer `agreed` accepts or
     * declines; without, cancelling declines (`agreed`: the user went to
     * earn or buy tokens instead); a failed check declines.
     */
    method HandleGameInvitationAccept(db: Database, gid: string, fetched: bool, agreed: bool, now: int,
                                      txDelivered: bool, acceptDelivered: bool, readOk: bool, roomDelivered: bool)
      requires chatRoomId.Some?
      modifies this`launchPending, db
      ensures (var c := GameTokens.CheckGameTokens(old(db.data), Some(uid), GameTokens.GAME_TOKEN_COST_ACCEPTOR, fetched);
        var declined := Apply(old(db.data), DeclineOps(chatRoomId.value, uid, now));
        (c.CheckError? || !agreed ==>
          db.data == declined && launchPending == old(launchPending)) &&
        (c.Insufficient? && agreed ==> db.data == old(db.data) && launchPending == old(launchPending)) &&
        (c.Sufficient? && agreed ==>
          db.data == AcceptWrite(old(db.data), gid, now, txDelivered, acceptDelivered, readOk, roomDelivered)) &&
        launchPending == if c.Sufficient? && agreed && AcceptLaunches(old(db.data), txDelivered, acceptDelivered, readOk)
          then Some(Launch(gid, false)) else old(launchPending))
    {
      var check := GameTokens.CheckGameTokens(db.data, Some(uid), GameTokens.GAME_TOKEN_COST_ACCEPTOR, fetched);
      match check
      case Sufficient(_) =>
        if agreed {
          AcceptGameInvitation(db, gid, now, txDelivered, acceptDelivered, readOk, roomDelivered);
        } else {
          DeclineGameInvitation(db, now);
        }
      case Insufficient(_) =>
        if !agreed {
          DeclineGameInvitation(db, now);
        }
      case CheckError =>
        DeclineGameInvitation(db, now);
    }

    /**
     * `startOrientationCheckActivity`: refused for a blank game room or a
     * missing partner; otherwise the intent for the orientation screen, which
     * that screen accepts with exactly these values, and the button reset.
     */
    method StartOrientationCheckActivity(gid: string, isInitiator: bool)
      modifies this`launched, this`gameInvitationSent
      ensures IsBlank(gid) || !Given(partnerId) ==>
        (launched == old(launched) && gameInvitationSent == old(gameInvitationSent))
      ensures !IsBlank(gid) && Given(partnerId) ==>
        (!gameInvitationSent &&
         launched == Some(Intent(Some(gid), partnerId, Some(partnerName.GetOr(DEFAULT_PARTNER_NAME)), isInitiator,
                                 chatRoomId, None)) &&
         ValidateIntent(launched.value) ==
           Some(Setup(gid, partnerId.value, if Given(partnerName) then partnerName.value else DEFAULT_PARTNER_NAME,
                      isInitiator, chatRoomId)))
    {
      if IsBlank(gid) || !Given(partnerId) {
        return;
      }
      launched := Some(Intent(Some(gid), partnerId, Some(partnerName.GetOr(DEFAULT_PARTNER_NAME)), isInitiator,
                              chatRoomId, None));
      assert DEFAULT_PARTNER_NAME[0] == 'P';
      gameInvitationSent := false;
    }

    /** The 1.5 s delayed launch. */
    method OnLaunchTimeout()
      requires launchPending.Some?
      modifies this`launchPending, this`launched, this`gameInvitationSent
      ensures launchPending.None?
      ensures (var l := old(launchPending).value;
        !IsBlank(l.gameRoomId) && Given(partnerId) ==>
          (launched.Some? && ValidateIntent(launched.value).Some? &&
           ValidateIntent(launched.value).value.gameRoomId == l.gameRoomId &&
           ValidateIntent(launched.value).value.isInitiator == l.isInitiator))
      ensures IsBlank(old(launchPending).value.gameRoomId) || !Given(partnerId) ==> launched == old(launched)
    {
      var l := launchPending.value;
      launchPending := None;
      StartOrientationCheckActivity(l.gameRoomId, l.isInitiator);
    }
  }
}
