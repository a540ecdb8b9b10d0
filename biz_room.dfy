/**
 * The earlier room of the chat facade (`biz/room.py`): the same store layout and
 * dealing as the game room, except that a room that does not reuse a stored queue
 * always builds one, whatever the seat count, and there is no seat check.
 */
module BizRoom {
  import opened Wrappers
  import opened Roles
  import opened RoomSpec
  import Store

  /**
   * A room id with no stored queue, opened with the default seat count 0 and one
   * Traitor, deals exactly a Lord and a Traitor, in the shuffled order.
   */
  lemma DefaultRoomDeals(st: RoomState, perm: seq<Role>)
    requires st.stored == None
    requires multiset(perm) == multiset(GenRoleSeq(0, 1))
    ensures Pending(Open(st, 0, true, perm)) == Some(perm)
    ensures multiset(perm) == multiset{Lord, Traitor}
    ensures Length(Open(st, 0, true, perm)) == 2
  {
    DefaultSeatRoles();
    assert |perm| == |multiset(perm)| == 2;
  }

  class Room {
    const roomId: string
    var roleQueue: Option<seq<Role>>
    const store: Store.Store

    /** The room as the room state machine sees it. */
    ghost function State(): RoomState
      reads this, store
    {
      RoomState(roleQueue, StoredAt(store.lists, QueueKey(roomId)), HashOf(store.hashes, UserKey(roomId)))
    }

    /**
     * `Room(room_id, n, traitor_cnt)`: reuse a stored queue of the right length (any
     * length when n is 0), else drop it and build a shuffled role sequence. `perm` is
     * the order `random.shuffle` gives the generated roles.
     */
    constructor (roomId: string, n: int, traitorCnt: int, store: Store.Store, perm: seq<Role>)
      requires multiset(perm) == multiset(GenRoleSeq(n, traitorCnt))
      modifies store
      ensures this.roomId == roomId && this.store == store
      ensures State() == Open(RoomState(None, StoredAt(old(store.lists), QueueKey(roomId)), HashOf(old(store.hashes), UserKey(roomId))), n, true, perm)
      ensures store.lists - {QueueKey(roomId)} == old(store.lists) - {QueueKey(roomId)}
      ensures store.hashes == old(store.hashes)
    {
      this.roomId := roomId;
      this.store := store;
      roleQueue := None;
      new;
      var present := store.Exists(QueueKey(roomId));
      if present {
        var len := store.LLen(QueueKey(roomId));
        if n == 0 || len == n {
          return;
        }
        store.Delete(QueueKey(roomId));
      }
      roleQueue := Some(perm);
    }

    /** `len(room)` */
    method Len() returns (n: nat)
      ensures n == Length(State())
    {
      if roleQueue.None? {
        n := store.LLen(QueueKey(roomId));
      } else {
        n := |roleQueue.value|;
      }
    }

    /** `pop_role(user_id)`: the cached role of a known user, else the tail of the queue, recorded for the user. */
    method PopRole(user: string) returns (r: Result<Role, RoomError>)
      modifies this, store
      ensures (r, State()) == RoomSpec.PopRole(old(State()), user)
      ensures store.lists - {QueueKey(roomId)} == old(store.lists) - {QueueKey(roomId)}
      ensures store.hashes - {UserKey(roomId)} == old(store.hashes) - {UserKey(roomId)}
    {
      var key := UserKey(roomId);
      var has := store.HExists(key, user);
      if has {
        var v := store.HGet(key, user);
        match FromValue(v.value)
        case Some(role) => return Ok(role);
        case None => return Err(BadValue(v.value));
      }
      var value: string;
      var role: Role;
      if roleQueue.None? {
        var popped := store.RPop(QueueKey(roomId));
        if popped.None? {
          return Err(QueueEmpty);
        }
        var d := FromValue(popped.value);
        if d.None? {
          return Err(BadValue(popped.value));
        }
        role, value := d.value, popped.value;
      } else {
        var q := roleQueue.value;
        if q == [] {
          return Err(QueueEmpty);
        }
        role := q[|q| - 1];
        roleQueue := Some(q[..|q| - 1]);
        value := Value(role);
      }
      var _ := store.HSet(key, user, value);
      r := Ok(role);
    }

    /** `cache()`: RPUSH the in-memory queue in order; the new stored length. */
    method Cache() returns (r: Result<nat, RoomError>)
      modifies store
      ensures (r, State()) == RoomSpec.Cache(old(State()))
      ensures store.lists - {QueueKey(roomId)} == old(store.lists) - {QueueKey(roomId)}
      ensures store.hashes == old(store.hashes)
    {
      if roleQueue.None? {
        return Err(NoQueue);
      }
      var pushed := store.RPush(QueueKey(roomId), Values(roleQueue.value));
      match pushed
      case Err(_) => r := Err(EmptyPush);
      case Ok(len) => r := Ok(len);
    }
  }
}
