/**
 * The game room of the `sgs` package: a role queue kept in memory or in the
 * store, per-user role pops, and the seat-completion check that, once every
 * role is taken, arranges the seated users into a cycle that starts at the Lord
 * and records the room as active.
 */
module SgsRoom {
  import opened Wrappers
  import opened Roles
  import opened RoomSpec
  import opened CardRegion
  import Store

  /** Index of the first seat holding the Lord, or the seat count when there is none. */
  function FirstLord(xs: seq<UserRole>): (i: nat)
    ensures i <= |xs| && (i < |xs| ==> xs[i].role == Lord)
    ensures forall j :: 0 <= j < i ==> xs[j].role != Lord
  {
    if xs == [] then 0 else if xs[0].role == Lord then 0 else 1 + FirstLord(xs[1..])
  }

  /** The seats rotated to start at the first Lord, `xs[i:] + xs[0:i]`, or None with no Lord. */
  function Rotated(xs: seq<UserRole>): Option<seq<UserRole>> {
    var i := FirstLord(xs);
    if i < |xs| then Some(xs[i..] + xs[..i]) else None
  }

  /** The rotation exists exactly when some seat holds the Lord, and then it starts at a Lord. */
  lemma RotatedAtLord(xs: seq<UserRole>)
    ensures Rotated(xs).None? <==> forall j :: 0 <= j < |xs| ==> xs[j].role != Lord
    ensures Rotated(xs).Some? ==> |Rotated(xs).value| == |xs| && Rotated(xs).value[0].role == Lord
  {
  }

  /** The rotation keeps every seat, as often as it occurs. */
  lemma RotatedMultiset(xs: seq<UserRole>)
    requires Rotated(xs).Some?
    ensures multiset(Rotated(xs).value) == multiset(xs)
  {
    var i := FirstLord(xs);
    assert xs == xs[..i] + xs[i..];
  }

  /** The rotation keeps the cyclic order: the seats from the Lord on, then the ones before it. */
  lemma RotatedOrder(xs: seq<UserRole>)
    requires Rotated(xs).Some?
    ensures forall k :: 0 <= k < |xs| - FirstLord(xs) ==> Rotated(xs).value[k] == xs[FirstLord(xs) + k]
    ensures forall k :: 0 <= k < FirstLord(xs) ==> Rotated(xs).value[|xs| - FirstLord(xs) + k] == xs[k]
  {
  }

  /** The seat loop of `check_all_seat`: the first seat whose role is the Lord decides the rotation. */
  method RotateToLord(cycle: seq<UserRole>) returns (r: Option<seq<UserRole>>)
    ensures r == Rotated(cycle)
  {
    var i := 0;
    while i < |cycle|
      invariant 0 <= i <= |cycle|
      invariant forall j :: 0 <= j < i ==> cycle[j].role != Lord
    {
      if cycle[i].role == Lord {
        FirstLordAt(cycle, i);
        return Some(cycle[i..] + cycle[..i]);
      }
      i := i + 1;
    }
    FirstLordAt(cycle, i);
    r := None;
  }

  lemma {:induction false} FirstLordAt(xs: seq<UserRole>, i: nat)
    requires i <= |xs| && (i < |xs| ==> xs[i].role == Lord)
    requires forall j :: 0 <= j < i ==> xs[j].role != Lord
    ensures FirstLord(xs) == i
    decreases i
  {
    if i > 0 {
      assert xs[0].role != Lord;
      FirstLordAt(xs[1..], i - 1);
    }
  }

  /** `scan` lists every user of the hash exactly once, in the order HSCAN returns them. */
  predicate IsListing(scan: seq<string>, users: map<string, string>) {
    && (forall i, j :: 0 <= i < j < |scan| ==> scan[i] != scan[j])
    && (forall k :: 0 <= k < |scan| ==> scan[k] in users)
    && (forall u :: u in users ==> u in scan)
  }

  /** Index of the first scanned user whose stored value is not a role, or |scan|. */
  function FirstBad(users: map<string, string>, scan: seq<string>): (i: nat)
    requires forall k :: 0 <= k < |scan| ==> scan[k] in users
    ensures i <= |scan| && (i < |scan| ==> FromValue(users[scan[i]]).None?)
    ensures forall j :: 0 <= j < i ==> FromValue(users[scan[j]]).Some?
  {
    if scan == [] then 0
    else if FromValue(users[scan[0]]).None? then 0
    else
      assert forall k :: 1 <= k < |scan| ==> scan[k] == scan[1..][k - 1];
      1 + FirstBad(users, scan[1..])
  }

  lemma {:induction false} FirstBadAt(users: map<string, string>, scan: seq<string>, i: nat)
    requires forall k :: 0 <= k < |scan| ==> scan[k] in users
    requires i <= |scan| && (i < |scan| ==> FromValue(users[scan[i]]).None?)
    requires forall j :: 0 <= j < i ==> FromValue(users[scan[j]]).Some?
    ensures FirstBad(users, scan) == i
    decreases i
  {
    if i > 0 {
      assert forall k :: 1 <= k < |scan| ==> scan[k] == scan[1..][k - 1];
      FirstBadAt(users, scan[1..], i - 1);
    }
  }

  /** The seat of a user whose stored value is a role; the Room object stands in the hero slot. */
  function SeatOf(roomId: string, users: map<string, string>, u: string): (s: UserRole)
    requires u in users && FromValue(users[u]).Some?
    ensures s.userId == u && Value(s.role) == users[u]
  {
    NewUserRole(u, FromValue(users[u]).value, RoomObject(roomId))
  }

  /** `[UserRole(field, Role(value), self) for field, value in hscan]`, failing at the first value that is no role. */
  function SeatsOf(roomId: string, users: map<string, string>, scan: seq<string>): (r: Result<seq<UserRole>, RoomError>)
    requires forall k :: 0 <= k < |scan| ==> scan[k] in users
    ensures r.Ok? ==> forall k :: 0 <= k < |scan| ==> FromValue(users[scan[k]]).Some?
    ensures r.Ok? ==> |r.value| == |scan| && forall k :: 0 <= k < |scan| ==> r.value[k] == SeatOf(roomId, users, scan[k])
    ensures r.Err? <==> exists k :: 0 <= k < |scan| && FromValue(users[scan[k]]).None?
  {
    var i := FirstBad(users, scan);
    if i < |scan| then Err(BadValue(users[scan[i]]))
    else Ok(seq(|scan|, k requires 0 <= k < |scan| => SeatOf(roomId, users, scan[k])))
  }

  /** The order `random.shuffle` leaves n seats in: position i holds seat order[i], and every seat is placed. */
  predicate IsOrder(order: seq<nat>, n: nat) {
    && |order| == n
    && (forall i :: 0 <= i < n ==> order[i] < n)
    && (forall k :: 0 <= k < n ==> k in order)
  }

  function Shuffle(xs: seq<UserRole>, order: seq<nat>): (r: seq<UserRole>)
    requires IsOrder(order, |xs|)
    ensures |r| == |xs| && forall i :: 0 <= i < |xs| ==> r[i] == xs[order[i]]
  {
    seq(|xs|, i requires 0 <= i < |xs| => xs[order[i]])
  }

  /** What `check_all_seat` answers. */
  datatype SeatCheck =
    | NotReady                   // None: roles are still pending, or the room is already active
    | NoLord                     // (): nobody holds the Lord
    | Cycle(seats: seq<UserRole>) // the seats, starting at the Lord
    | SeatFailed(e: RoomError)   // a stored value is not a role

  /**
   * `check_all_seat()` on a room state: `active` says whether the room is in
   * `rooms_queue`, `scan` is the hash's HSCAN order and `order` the permutation
   * `random.shuffle` applies to the seats.
   */
  function SeatCheckOf(roomId: string, st: RoomState, active: bool, scan: seq<string>, order: seq<nat>): SeatCheck
    requires forall k :: 0 <= k < |scan| ==> scan[k] in st.users
    requires IsOrder(order, |scan|)
  {
    if Length(st) != 0 || active then NotReady
    else match SeatsOf(roomId, st.users, scan)
      case Err(e) => SeatFailed(e)
      case Ok(seats) =>
        match Rotated(Shuffle(seats, order))
        case None => NoLord
        case Some(c) => Cycle(c)
  }

  /** The shuffled seats: each scanned user once, in the order the shuffle chose. */
  function ShuffledSeats(roomId: string, users: map<string, string>, scan: seq<string>, order: seq<nat>): (sh: seq<UserRole>)
    requires forall k :: 0 <= k < |scan| ==> scan[k] in users
    requires IsOrder(order, |scan|) && SeatsOf(roomId, users, scan).Ok?
  {
    Shuffle(SeatsOf(roomId, users, scan).value, order)
  }

  /** Every user of the hash has a seat among the shuffled seats, and a Lord in the hash is a Lord seat. */
  lemma UserSeated(roomId: string, users: map<string, string>, scan: seq<string>, order: seq<nat>, u: string)
    requires IsListing(scan, users) && IsOrder(order, |scan|) && SeatsOf(roomId, users, scan).Ok?
    requires u in users
    ensures exists i :: 0 <= i < |scan| && ShuffledSeats(roomId, users, scan, order)[i].userId == u
                         && Value(ShuffledSeats(roomId, users, scan, order)[i].role) == users[u]
  {
    var seats := SeatsOf(roomId, users, scan).value;
    var k :| 0 <= k < |scan| && scan[k] == u;
    assert k in order;
    var i :| 0 <= i < |order| && order[i] == k;
    assert ShuffledSeats(roomId, users, scan, order)[i] == seats[k];
  }

  /** A Lord seat among the shuffled seats comes from a user whose stored value is the Lord. */
  lemma LordFromHash(roomId: string, users: map<string, string>, scan: seq<string>, order: seq<nat>, i: nat)
    requires IsListing(scan, users) && IsOrder(order, |scan|) && SeatsOf(roomId, users, scan).Ok?
    requires i < |scan| && ShuffledSeats(roomId, users, scan, order)[i].role == Lord
    ensures var u := ShuffledSeats(roomId, users, scan, order)[i].userId; u in users && users[u] == Value(Lord)
  {
    var seats := SeatsOf(roomId, users, scan).value;
    assert ShuffledSeats(roomId, users, scan, order)[i] == seats[order[i]];
  }

  /** Once no role is pending and the room is not active, the check produces a cycle iff some user holds the Lord. */
  lemma CheckAllSeatCycle(roomId: string, st: RoomState, scan: seq<string>, order: seq<nat>)
    requires IsListing(scan, st.users) && IsOrder(order, |scan|) && Length(st) == 0
    requires SeatsOf(roomId, st.users, scan).Ok?
    ensures SeatCheckOf(roomId, st, false, scan, order).Cycle? <==> exists u :: u in st.users && st.users[u] == Value(Lord)
    ensures !SeatCheckOf(roomId, st, false, scan, order).Cycle? ==> SeatCheckOf(roomId, st, false, scan, order) == NoLord
  {
    var sh := ShuffledSeats(roomId, st.users, scan, order);
    RotatedAtLord(sh);
    if exists u :: u in st.users && st.users[u] == Value(Lord) {
      var u :| u in st.users && st.users[u] == Value(Lord);
      UserSeated(roomId, st.users, scan, order, u);
      var i :| 0 <= i < |scan| && sh[i].userId == u && Value(sh[i].role) == st.users[u];
      ValueRoundTrip(sh[i].role);
    } else if Rotated(sh).Some? {
      var i := FirstLord(sh);
      LordFromHash(roomId, st.users, scan, order, i);
    }
  }

  /** The cycle starts at the Lord and seats every user of the hash, one seat per user. */
  lemma CheckAllSeatSeatsAll(roomId: string, st: RoomState, scan: seq<string>, order: seq<nat>)
    requires IsListing(scan, st.users) && IsOrder(order, |scan|) && Length(st) == 0
    requires SeatCheckOf(roomId, st, false, scan, order).Cycle?
    ensures var c := SeatCheckOf(roomId, st, false, scan, order).seats;
      && c[0].role == Lord
      && |c| == |scan|
      && (forall u :: u in st.users ==> exists k :: 0 <= k < |c| && c[k].userId == u)
  {
    var sh := ShuffledSeats(roomId, st.users, scan, order);
    RotatedAtLord(sh);
    RotatedMultiset(sh);
    var c := Rotated(sh).value;
    forall u | u in st.users ensures exists j :: 0 <= j < |c| && c[j].userId == u {
      UserSeated(roomId, st.users, scan, order, u);
      var i :| 0 <= i < |scan| && sh[i].userId == u && Value(sh[i].role) == st.users[u];
      assert sh[i] in multiset(c);
      var j :| 0 <= j < |c| && c[j] == sh[i];
    }
  }

  /** A room still dealing roles, or already active, is never reported complete. */
  lemma CheckAllSeatNotReady(roomId: string, st: RoomState, active: bool, scan: seq<string>, order: seq<nat>)
    requires forall k :: 0 <= k < |scan| ==> scan[k] in st.users
    requires IsOrder(order, |scan|)
    requires Length(st) != 0 || active
    ensures SeatCheckOf(roomId, st, active, scan, order) == NotReady
  {
  }

  /** The rooms with a game running: the keys of `Room.rooms_queue`. */
  class RoomsIndex {
    var active: set<string>

    constructor ()
      ensures active == {}
    {
      active := {};
    }
  }

  class Room {
    const roomId: string
    const collection: string
    var roleQueue: Option<seq<Role>>
    const store: Store.Store
    const index: RoomsIndex

    /** The room as the room state machine sees it. */
    ghost function State(): RoomState
      reads this, store
    {
      RoomState(roleQueue, StoredAt(store.lists, QueueKey(roomId)), HashOf(store.hashes, UserKey(roomId)))
    }

    /**
     * `Room(room_id, n, traitor_cnt, collection)`: reuse or rebuild the queue; the
     * sequence is built only for n > 1. `perm` is the order `random.shuffle` gives
     * the generated roles.
     */
    constructor (roomId: string, n: int, traitorCnt: int, collection: string, store: Store.Store, index: RoomsIndex, perm: seq<Role>)
      requires multiset(perm) == multiset(GenRoleSeq(n, traitorCnt))
      modifies store
      ensures this.roomId == roomId && this.collection == collection && this.store == store && this.index == index
      ensures State() == Open(RoomState(None, StoredAt(old(store.lists), QueueKey(roomId)), HashOf(old(store.hashes), UserKey(roomId))), n, n > 1, perm)
      ensures store.lists - {QueueKey(roomId)} == old(store.lists) - {QueueKey(roomId)}
      ensures store.hashes == old(store.hashes)
    {
      this.roomId := roomId;
      this.collection := collection;
      this.store := store;
      this.index := index;
      roleQueue := None;
      new;
      var present := store.Exists(QueueKey(roomId));
      var reuse := false;
      if present {
        var len := store.LLen(QueueKey(roomId));
        if n == 0 || len == n {
          reuse := true;
        } else {
          store.Delete(QueueKey(roomId));
        }
      }
      if !reuse {
        if n > 1 {
          roleQueue := Some(perm);
        } else {
          roleQueue := None;
        }
      }
    }

    /** `len(room)` */
    method Len() returns (n: nat)
      ensures n == Length(State())
    {
      if roleQueue.None? {
        n := store.LLen(QueueKey(roomId));
      } else {
        n := |roleQueue.value|;
      }
    }

    /**
     * `pop_role(user_id)`: the cached role of a known user, else the tail of the
     * authoritative queue, recorded for the user. Scheduling the seat check on a
     * process pool is not part of the call here.
     */
    method PopRole(user: string) returns (r: Result<Role, RoomError>)
      modifies this, store
      ensures (r, State()) == RoomSpec.PopRole(old(State()), user)
      ensures store.lists - {QueueKey(roomId)} == old(store.lists) - {QueueKey(roomId)}
      ensures store.hashes - {UserKey(roomId)} == old(store.hashes) - {UserKey(roomId)}
    {
      var key := UserKey(roomId);
      var has := store.HExists(key, user);
      if has {
        var v := store.HGet(key, user);
        match FromValue(v.value)
        case Some(role) => return Ok(role);
        case None => return Err(BadValue(v.value));
      }
      var value: string;
      var role: Role;
      if roleQueue.None? {
        var popped := store.RPop(QueueKey(roomId));
        if popped.None? {
          return Err(QueueEmpty);
        }
        var d := FromValue(popped.value);
        if d.None? {
          return Err(BadValue(popped.value));
        }
        role, value := d.value, popped.value;
      } else {
        var q := roleQueue.value;
        if q == [] {
          return Err(QueueEmpty);
        }
        role := q[|q| - 1];
        roleQueue := Some(q[..|q| - 1]);
        value := Value(role);
      }
      var _ := store.HSet(key, user, value);
      r := Ok(role);
    }

    /** `cache()`: RPUSH the in-memory queue in order; the new stored length. */
    method Cache() returns (r: Result<nat, RoomError>)
      modifies store
      ensures (r, State()) == RoomSpec.Cache(old(State()))
      ensures store.lists - {QueueKey(roomId)} == old(store.lists) - {QueueKey(roomId)}
      ensures store.hashes == old(store.hashes)
    {
      if roleQueue.None? {
        return Err(NoQueue);
      }
      var pushed := store.RPush(QueueKey(roomId), Values(roleQueue.value));
      match pushed
      case Err(_) => r := Err(EmptyPush);
      case Ok(len) => r := Ok(len);
    }

    /** `offline()`: the room stops being active; nothing happens if it was not. */
    method Offline()
      modifies index
      ensures index.active == old(index.active) - {roomId}
    {
      index.active := index.active - {roomId};
    }

    /**
     * `check_all_seat()`, run in sequence: the lock is a fresh one per pop, so
     * taking it always succeeds and the second `rooms_queue` test sees what the
     * first saw.
     */
    method CheckAllSeat(scan: seq<string>, order: seq<nat>) returns (r: SeatCheck)
      requires IsListing(scan, HashOf(store.hashes, UserKey(roomId))) && IsOrder(order, |scan|)
      ensures r == SeatCheckOf(roomId, State(), roomId in index.active, scan, order)
    {
      var len := Len();
      if len != 0 || roomId in index.active {
        return NotReady;
      }
      var seats := ScanSeats(store.HashAt(UserKey(roomId)), scan);
      if seats.Err? {
        return SeatFailed(seats.error);
      }
      var cycle := Shuffle(seats.value, order);
      var rotated := RotateToLord(cycle);
      match rotated
      case None => r := NoLord;
      case Some(c) => r := Cycle(c);
    }

    /** The list comprehension over HSCAN: one seat per scanned user, failing at the first value that is not a role. */
    method ScanSeats(users: map<string, string>, scan: seq<string>) returns (r: Result<seq<UserRole>, RoomError>)
      requires forall k :: 0 <= k < |scan| ==> scan[k] in users
      ensures r == SeatsOf(roomId, users, scan)
    {
      var seats: seq<UserRole> := [];
      var k := 0;
      while k < |scan|
        invariant 0 <= k <= |scan|
        invariant forall j :: 0 <= j < k ==> FromValue(users[scan[j]]).Some?
        invariant |seats| == k && forall j :: 0 <= j < k ==> seats[j] == SeatOf(roomId, users, scan[j])
      {
        var d := FromValue(users[scan[k]]);
        if d.None? {
          FirstBadAt(users, scan, k);
          return Err(BadValue(users[scan[k]]));
        }
        seats := seats + [NewUserRole(scan[k], d.value, RoomObject(roomId))];
        k := k + 1;
      }
      FirstBadAt(users, scan, k);
      assert seats == SeatsOf(roomId, users, scan).value;
      r := Ok(seats);
    }

    /** `all_seat_done(role_cycle)`: a non-empty cycle makes the room active; the game itself is not modelled. */
    method AllSeatDone(check: SeatCheck)
      modifies index
      ensures index.active == if check.Cycle? && check.seats != [] then old(index.active) + {roomId} else old(index.active)
    {
      if check.Cycle? && check.seats != [] {
        index.active := index.active + {roomId};
      }
    }
  }
}
