/**
 * The presence registry of the socket service (services/socketService.js):
 * a module-level Map from user id to socket id, written on connect and
 * disconnect and read by the lookup helpers and the online-users broadcast.
 *
 * A JavaScript Map keeps its keys in first-insertion order; the registry is
 * that key order together with the key-to-socket map. The status updates in
 * the user service, the room join, the log lines and the event wiring are
 * not modelled; the broadcast is the list a disconnect or connect emits.
 */
module SocketService {
  import opened Wrappers

  predicate Distinct(ks: seq<string>) {
    forall i, j :: 0 <= i < j < |ks| ==> ks[i] != ks[j]
  }

  /** The Map's contents: its keys in iteration order, and the socket id under each. */
  datatype Presence = Presence(keys: seq<string>, sockets: map<string, string>)

  /** The key order lists each key of the map exactly once. */
  ghost predicate Valid(p: Presence) {
    Distinct(p.keys) && forall k :: k in p.sockets <==> k in p.keys
  }

  const EMPTY: Presence := Presence([], map[])

  function Without(ks: seq<string>, k: string): (r: seq<string>)
    ensures forall x :: x in r <==> x in ks && x != k
    ensures Distinct(ks) ==> Distinct(r)
    decreases |ks|
  {
    if |ks| == 0 then []
    else if ks[0] == k then Without(ks[1..], k)
    else
      var rest := Without(ks[1..], k);
      assert Distinct(ks) ==> ks[0] !in ks[1..] && Distinct(ks[1..]);
      [ks[0]] + rest
  }

  /** `userSocketMap.set(userId, socketId)`: a new key goes last, an existing one keeps its place. */
  function SetEntry(p: Presence, userId: string, socketId: string): Presence {
    Presence(if userId in p.keys then p.keys else p.keys + [userId], p.sockets[userId := socketId])
  }

  /** `userSocketMap.delete(userId)`. */
  function DeleteEntry(p: Presence, userId: string): Presence {
    Presence(Without(p.keys, userId), p.sockets - {userId})
  }

  /** `getUserSocketId(userId)`: the stored socket id, None (undefined) for an absent user. */
  function GetUserSocketId(p: Presence, userId: string): (r: Option<string>)
    ensures r.Some? <==> userId in p.sockets
    ensures r.Some? ==> r.value == p.sockets[userId]
  {
    if userId in p.sockets then Some(p.sockets[userId]) else None
  }

  /** `isUserOnline(userId)` */
  predicate IsUserOnline(p: Presence, userId: string) {
    userId in p.sockets
  }

  /** The list `broadcastOnlineUsers` emits: `Array.from(userSocketMap.keys())`. */
  function OnlineUsers(p: Presence): (r: seq<string>)
    requires Valid(p)
    ensures Distinct(r) && forall u :: u in r <==> IsUserOnline(p, u)
  {
    p.keys
  }

  lemma {:induction false} DistinctCardinality(ks: seq<string>)
    requires Distinct(ks)
    ensures |set k | k in ks| == |ks|
    decreases |ks|
  {
    if |ks| > 0 {
      var rest := ks[1..];
      assert Distinct(rest);
      DistinctCardinality(rest);
      assert (set k | k in ks) == (set k | k in rest) + {ks[0]};
      assert ks[0] !in rest;
    }
  }

  /** `getOnlineUsersCount()`: the Map's size, which is also the length of the broadcast list. */
  function GetOnlineUsersCount(p: Presence): (n: nat)
    requires Valid(p)
    ensures n == |p.keys|
  {
    DistinctCardinality(p.keys);
    assert p.sockets.Keys == set k | k in p.keys;
    |p.sockets|
  }

  /** Setting and deleting keep the key order and the map in step. */
  lemma {:induction false} UpdatesKeepValid(p: Presence, userId: string, socketId: string)
    requires Valid(p)
    ensures Valid(SetEntry(p, userId, socketId))
    ensures Valid(DeleteEntry(p, userId))
  {
    if userId !in p.keys {
      var ks := p.keys + [userId];
      forall i, j | 0 <= i < j < |ks| ensures ks[i] != ks[j] {
        if j == |ks| - 1 {
          assert ks[i] == p.keys[i];
        }
      }
    }
  }

  /** After a set the user maps to the new socket (replacing any earlier one); every other user is as before. */
  lemma SetEntryEffect(p: Presence, userId: string, socketId: string, other: string)
    requires Valid(p) && other != userId
    ensures GetUserSocketId(SetEntry(p, userId, socketId), userId) == Some(socketId)
    ensures GetUserSocketId(SetEntry(p, userId, socketId), other) == GetUserSocketId(p, other)
    ensures GetOnlineUsersCount(SetEntry(p, userId, socketId)) == GetOnlineUsersCount(p) + (if IsUserOnline(p, userId) then 0 else 1)
  {
    UpdatesKeepValid(p, userId, socketId);
  }

  /** A delete takes exactly that user offline. */
  lemma DeleteEntryEffect(p: Presence, userId: string, other: string)
    requires Valid(p) && other != userId
    ensures !IsUserOnline(DeleteEntry(p, userId), userId)
    ensures GetUserSocketId(DeleteEntry(p, userId), other) == GetUserSocketId(p, other)
  {
  }

  /** A truthy id: present and non-empty. */
  predicate Truthy(v: Option<string>) {
    v.Some? && v.value != ""
  }

  /**
   * `handleUserConnection`: keyed by `socket.user.id`; returns the list
   * broadcast to every client, None when nothing is emitted.
   */
  function ConnectionOutcome(p: Presence, socketUserId: Option<string>, socketId: string): (Presence, Option<seq<string>>)
    requires Valid(p)
  {
    if Truthy(socketUserId) then
      var p' := SetEntry(p, socketUserId.value, socketId);
      UpdatesKeepValid(p, socketUserId.value, socketId);
      (p', Some(OnlineUsers(p')))
    else (p, None)
  }

  /** The 'disconnect' handler: keyed by `socket.userId`, a different property from the one connect uses. */
  function DisconnectionOutcome(p: Presence, socketUserIdField: Option<string>): (Presence, Option<seq<string>>)
    requires Valid(p)
  {
    if Truthy(socketUserIdField) then
      var p' := DeleteEntry(p, socketUserIdField.value);
      UpdatesKeepValid(p, socketUserIdField.value, "");
      (p', Some(OnlineUsers(p')))
    else (p, None)
  }

  /**
   * A connect followed by the disconnect of the same socket leaves the user
   * offline only when `socket.userId` names that user; when `socket.userId`
   * is unset, the user stays listed as online with the closed socket.
   */
  lemma {:induction false} DisconnectMatchesConnectOnlyByUserId(p: Presence, userId: string, socketId: string,
                                                             socketUserIdField: Option<string>)
    requires Valid(p) && userId != ""
    ensures var p1 := ConnectionOutcome(p, Some(userId), socketId).0;
      Valid(p1)
      && (socketUserIdField == Some(userId) ==> !IsUserOnline(DisconnectionOutcome(p1, socketUserIdField).0, userId))
      && (!Truthy(socketUserIdField) ==>
            DisconnectionOutcome(p1, socketUserIdField).0 == p1 && GetUserSocketId(p1, userId) == Some(socketId))
  {
    UpdatesKeepValid(p, userId, socketId);
  }

  /** The registry, as the module-level Map. */
  class Registry {
    var keys: seq<string>
    var sockets: map<string, string>

    function State(): Presence
      reads this
    {
      Presence(keys, sockets)
    }

    constructor ()
      ensures State() == EMPTY
    {
      keys := [];
      sockets := map[];
    }

    method Set(userId: string, socketId: string)
      modifies this
      ensures State() == SetEntry(old(State()), userId, socketId)
    {
      if userId !in keys {
        keys := keys + [userId];
      }
      sockets := sockets[userId := socketId];
    }

    method Delete(userId: string)
      modifies this
      ensures State() == DeleteEntry(old(State()), userId)
    {
      keys := Without(keys, userId);
      sockets := sockets - {userId};
    }

    method HandleUserConnection(socketUserId: Option<string>, socketId: string) returns (broadcast: Option<seq<string>>)
      requires Valid(State())
      modifies this
      ensures (State(), broadcast) == ConnectionOutcome(old(State()), socketUserId, socketId)
      ensures Valid(State())
    {
      broadcast := None;
      if Truthy(socketUserId) {
        UpdatesKeepValid(State(), socketUserId.value, socketId);
        Set(socketUserId.value, socketId);
        broadcast := Some(keys);
      }
    }

    method HandleUserDisconnection(socketUserIdField: Option<string>) returns (broadcast: Option<seq<string>>)
      requires Valid(State())
      modifies this
      ensures (State(), broadcast) == DisconnectionOutcome(old(State()), socketUserIdField)
      ensures Valid(State())
    {
      broadcast := None;
      if Truthy(socketUserIdField) {
        UpdatesKeepValid(State(), socketUserIdField.value, "");
        Delete(socketUserIdField.value);
        broadcast := Some(keys);
      }
    }
  }
}
