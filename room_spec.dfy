/**
 * The room's role-issuing state machine on values. The state of one room is its
 * in-memory `role_queue` (None once the room was reopened from the store), the
 * stored list under `rq_<room_id>` (None when the key does not exist) and the
 * per-user hash under `ru_<room_id>`. Both Room classes are proved to follow
 * these functions; the lemmas below are the room's guarantees.
 */
module RoomSpec {
  import opened Wrappers
  import opened Roles

  datatype RoomState = RoomState(queue: Option<seq<Role>>, stored: Option<seq<string>>, users: map<string, string>)

  datatype RoomError =
    | QueueEmpty        // `list.pop()` on an empty queue, or RPOP answering nil
    | BadValue(v: string) // `Role(value)` on a value that is not a role
    | NoQueue            // `cache` iterating a role_queue that is None
    | EmptyPush          // `cache` pushing an empty queue: RPUSH needs a value

  function QueueKey(roomId: string): string {
    "rq_" + roomId
  }

  function UserKey(roomId: string): string {
    "ru_" + roomId
  }

  /** The list a key holds in the store, None when the key does not exist. */
  function StoredAt(lists: map<string, seq<string>>, key: string): Option<seq<string>> {
    if key in lists then Some(lists[key]) else None
  }

  function HashOf(hashes: map<string, map<string, string>>, key: string): map<string, string> {
    if key in hashes then hashes[key] else map[]
  }

  /** The string list the store keeps for a role sequence, in order. */
  function Values(q: seq<Role>): (vs: seq<string>)
    ensures |vs| == |q|
    ensures forall k :: 0 <= k < |q| ==> vs[k] == Value(q[k])
  {
    if q == [] then [] else Values(q[..|q| - 1]) + [Value(q[|q| - 1])]
  }

  /** The roles a stored list decodes to, or None if some value is not a role. */
  function Decode(vs: seq<string>): (q: Option<seq<Role>>)
    ensures q.Some? ==> |q.value| == |vs|
  {
    if vs == [] then Some([])
    else
      var p := Decode(vs[..|vs| - 1]);
      var r := FromValue(vs[|vs| - 1]);
      if p.Some? && r.Some? then Some(p.value + [r.value]) else None
  }

  lemma {:induction false} DecodeValues(q: seq<Role>)
    ensures Decode(Values(q)) == Some(q)
  {
    if q != [] {
      var init, last := q[..|q| - 1], q[|q| - 1];
      DecodeValues(init);
      ValueRoundTrip(last);
      DecodeOneMore(Values(init), Value(last), init, last);
      ValuesSnoc(q);
      assert init + [last] == q;
    }
  }

  lemma ValuesSnoc(q: seq<Role>)
    requires q != []
    ensures Values(q) == Values(q[..|q| - 1]) + [Value(q[|q| - 1])]
  {
  }

  /** A decodable list followed by a role value decodes to its roles followed by that role. */
  lemma DecodeOneMore(vs: seq<string>, v: string, init: seq<Role>, last: Role)
    requires Decode(vs) == Some(init) && FromValue(v) == Some(last)
    ensures Decode(vs + [v]) == Some(init + [last])
  {
    DecodeSnoc(vs, v);
  }

  /** Decoding one more value decodes the list before it and then that value. */
  lemma DecodeSnoc(vs: seq<string>, v: string)
    ensures Decode(vs + [v]) == (var p, r := Decode(vs), FromValue(v); if p.Some? && r.Some? then Some(p.value + [r.value]) else None)
  {
    assert (vs + [v])[..|vs|] == vs;
  }

  lemma {:induction false} DecodeDropLast(vs: seq<string>, q: seq<Role>)
    requires vs != [] && Decode(vs) == Some(q)
    ensures q != [] && Decode(vs[..|vs| - 1]) == Some(q[..|q| - 1])
    ensures FromValue(vs[|vs| - 1]) == Some(q[|q| - 1])
  {
  }

  /**
   * The state `Room(room_id, n, traitor_cnt)` leaves: a stored queue that exists
   * is reused when n is 0 or its length is n; otherwise it is deleted and, when
   * `build` holds, the in-memory queue is `perm`, the shuffled generated roles.
   */
  function Open(st: RoomState, n: int, build: bool, perm: seq<Role>): (r: RoomState)
    ensures r.users == st.users
    ensures r.stored.Some? ==> r.stored == st.stored && r.queue.None?
    ensures r.queue.Some? ==> r.queue == Some(perm) && r.stored.None?
  {
    if st.stored.Some? && (n == 0 || |st.stored.value| == n) then st.(queue := None)
    else st.(queue := if build then Some(perm) else None, stored := None)
  }

  /** Reopening a matching stored queue only forgets the in-memory queue; the store is untouched. */
  lemma OpenReuses(st: RoomState, n: int, build: bool, perm: seq<Role>)
    requires st.stored.Some? && (n == 0 || |st.stored.value| == n)
    ensures Open(st, n, build, perm) == Reopened(st)
    ensures Length(Open(st, n, build, perm)) == |st.stored.value|
  {
  }

  /**
   * Otherwise the stored queue is gone and a built room holds a full shuffled role
   * sequence: one Lord, n//2 Rebels and the rest, with the user hash untouched.
   */
  lemma OpenRebuilds(st: RoomState, n: int, traitorCnt: int, perm: seq<Role>)
    requires !(st.stored.Some? && (n == 0 || |st.stored.value| == n))
    requires multiset(perm) == multiset(GenRoleSeq(n, traitorCnt))
    ensures Open(st, n, true, perm).stored == None
    ensures Pending(Open(st, n, true, perm)) == Some(perm)
    ensures Length(Open(st, n, true, perm)) == |GenRoleSeq(n, traitorCnt)|
    ensures multiset(perm)[Lord] == 1
    ensures Open(st, n, true, perm).users == st.users
  {
    GenRoleSeqComposition(n, traitorCnt);
    assert |perm| == |multiset(perm)| == |GenRoleSeq(n, traitorCnt)|;
  }

  /** A room opened without building has no queue to deal from: it refuses every new user. */
  lemma OpenWithoutBuild(st: RoomState, n: int, perm: seq<Role>, user: string)
    requires !(st.stored.Some? && (n == 0 || |st.stored.value| == n))
    requires user !in st.users
    ensures Open(st, n, false, perm).queue == None && Length(Open(st, n, false, perm)) == 0
    ensures PopRole(Open(st, n, false, perm), user).0 == Err(QueueEmpty)
  {
  }

  /** `len(room)`: the in-memory queue when there is one, else the stored list (LLEN). */
  function Length(st: RoomState): nat {
    if st.queue.Some? then |st.queue.value|
    else if st.stored.Some? then |st.stored.value|
    else 0
  }

  /** The roles still to be issued, read from whichever queue is authoritative. */
  function Pending(st: RoomState): Option<seq<Role>> {
    if st.queue.Some? then st.queue
    else if st.stored.Some? then Decode(st.stored.value)
    else Some([])
  }

  /** `pop_role(user_id)`: the call's outcome and the room's next state. */
  function PopRole(st: RoomState, user: string): (r: (Result<Role, RoomError>, RoomState))
    ensures user in st.users ==> r.1 == st
    ensures r.0.Ok? ==> user in r.1.users && FromValue(r.1.users[user]) == Some(r.0.value)
    ensures forall u :: u in st.users ==> u in r.1.users && r.1.users[u] == st.users[u]
    ensures r.0.Ok? && user !in st.users ==> Length(r.1) == Length(st) - 1
  {
    if user in st.users then
      match FromValue(st.users[user])
      case Some(r) => (Ok(r), st)
      case None => (Err(BadValue(st.users[user])), st)
    else if st.queue.None? then
      if st.stored.None? || st.stored.value == [] then (Err(QueueEmpty), st)
      else
        var l := st.stored.value;
        var v := l[|l| - 1];
        var popped := st.(stored := Some(l[..|l| - 1]));
        match FromValue(v)
        case Some(r) => (Ok(r), popped.(users := st.users[user := v]))
        case None => (Err(BadValue(v)), popped)
    else if st.queue.value == [] then (Err(QueueEmpty), st)
    else
      var q := st.queue.value;
      var r := q[|q| - 1];
      (Ok(r), st.(queue := Some(q[..|q| - 1]), users := st.users[user := Value(r)]))
  }

  /** A user who already holds a role gets the same role back and nothing changes. */
  lemma PopRoleCached(st: RoomState, user: string, r: Role)
    requires user in st.users && FromValue(st.users[user]) == Some(r)
    ensures PopRole(st, user) == (Ok(r), st)
  {
  }

  /**
   * A new user takes the last pending role of the authoritative queue: it is
   * recorded under that user, returned, and the queue loses exactly that element.
   */
  lemma PopRoleFresh(st: RoomState, user: string, q: seq<Role>)
    requires user !in st.users && Pending(st) == Some(q) && q != []
    ensures PopRole(st, user).0 == Ok(q[|q| - 1])
    ensures Pending(PopRole(st, user).1) == Some(q[..|q| - 1])
    ensures Length(PopRole(st, user).1) == Length(st) - 1
    ensures PopRole(st, user).1.users == st.users[user := Value(q[|q| - 1])]
    ensures PopRole(st, user).1.queue.Some? == st.queue.Some?
  {
    if st.queue.None? {
      DecodeDropLast(st.stored.value, q);
    }
  }

  /** A new user on an exhausted room is refused and the room is unchanged. */
  lemma PopRoleExhausted(st: RoomState, user: string)
    requires user !in st.users && Length(st) == 0
    ensures PopRole(st, user) == (Err(QueueEmpty), st)
  {
  }

  /** Asking twice for the same user returns the same role, and the second call changes nothing. */
  lemma PopRoleIdempotent(st: RoomState, user: string, r: Role)
    requires PopRole(st, user).0 == Ok(r)
    ensures PopRole(PopRole(st, user).1, user) == (Ok(r), PopRole(st, user).1)
  {
    var st' := PopRole(st, user).1;
    assert user in st'.users && st'.users[user] == Value(r) by {
      if user !in st.users && st.queue.None? {
        assert FromValue(st'.users[user]) == Some(r);
      }
    }
    ValueRoundTrip(r);
  }

  /** Several `pop_role` calls in a row, one per user, with their outcomes in call order. */
  function PopMany(st: RoomState, us: seq<string>): (Result<seq<Role>, RoomError>, RoomState)
    decreases |us|
  {
    if us == [] then (Ok([]), st)
    else
      var step := PopRole(st, us[0]);
      if step.0.Err? then (Err(step.0.error), step.1)
      else
        var rest := PopMany(step.1, us[1..]);
        if rest.0.Err? then rest
        else (Ok([step.0.value] + rest.0.value), rest.1)
  }

  predicate Fresh(st: RoomState, us: seq<string>) {
    && (forall i, j :: 0 <= i < j < |us| ==> us[i] != us[j])
    && (forall i :: 0 <= i < |us| ==> us[i] !in st.users)
  }

  lemma FreshTail(st: RoomState, us: seq<string>, q: seq<Role>)
    requires Fresh(st, us) && us != [] && Pending(st) == Some(q) && q != []
    ensures Fresh(PopRole(st, us[0]).1, us[1..])
  {
    PopRoleFresh(st, us[0], q);
    var st1 := PopRole(st, us[0]).1;
    forall i | 0 <= i < |us| - 1 ensures us[1..][i] !in st1.users {
      assert us[1..][i] == us[i + 1];
    }
  }

  /**
   * k distinct new users on a room with k pending roles all succeed; together they
   * receive exactly the pending multiset, and the queue ends empty.
   */
  lemma {:induction false} DealAll(st: RoomState, us: seq<string>, q: seq<Role>)
    requires Pending(st) == Some(q) && |us| == |q| && Fresh(st, us)
    ensures PopMany(st, us).0.Ok?
    ensures multiset(PopMany(st, us).0.value) == multiset(q)
    ensures Pending(PopMany(st, us).1) == Some([])
    decreases |us|
  {
    if us != [] {
      PopRoleFresh(st, us[0], q);
      FreshTail(st, us, q);
      var st1 := PopRole(st, us[0]).1;
      var init := q[..|q| - 1];
      DealAll(st1, us[1..], init);
      PopManyStep(st, us);
      var rest := PopMany(st1, us[1..]);
      LastThenRest(q, rest.0.value);
    }
  }

  /** Handing out the last role, then a permutation of the others, hands out a permutation of all. */
  lemma LastThenRest(q: seq<Role>, vs: seq<Role>)
    requires q != [] && multiset(vs) == multiset(q[..|q| - 1])
    ensures multiset([q[|q| - 1]] + vs) == multiset(q)
  {
    assert q == q[..|q| - 1] + [q[|q| - 1]];
  }

  /** A run of pops whose first pop and remaining pops succeed returns the first role, then the rest. */
  lemma PopManyStep(st: RoomState, us: seq<string>)
    requires us != [] && PopRole(st, us[0]).0.Ok?
    requires PopMany(PopRole(st, us[0]).1, us[1..]).0.Ok?
    ensures var rest := PopMany(PopRole(st, us[0]).1, us[1..]);
      PopMany(st, us) == (Ok([PopRole(st, us[0]).0.value] + rest.0.value), rest.1)
  {
  }

  /** Every one of those users ends up recorded in the room's user hash. */
  lemma {:induction false} DealAllRecords(st: RoomState, us: seq<string>, q: seq<Role>)
    requires Pending(st) == Some(q) && |us| == |q| && Fresh(st, us)
    ensures forall i :: 0 <= i < |us| ==> us[i] in PopMany(st, us).1.users
    decreases |us|
  {
    if us != [] {
      PopRoleFresh(st, us[0], q);
      FreshTail(st, us, q);
      var st1 := PopRole(st, us[0]).1;
      DealAll(st1, us[1..], q[..|q| - 1]);
      DealAllRecords(st1, us[1..], q[..|q| - 1]);
      UsersKept(st1, us[1..], us[0]);
      forall i | 0 < i < |us| ensures us[i] in PopMany(st, us).1.users {
        assert us[i] == us[1..][i - 1];
      }
    }
  }

  /** A recorded user stays recorded through later pops. */
  lemma {:induction false} UsersKept(st: RoomState, us: seq<string>, u: string)
    requires u in st.users
    ensures u in PopMany(st, us).1.users
    decreases |us|
  {
    if us != [] {
      var st1 := PopRole(st, us[0]).1;
      assert u in st1.users;
      UsersKept(st1, us[1..], u);
    }
  }

  /** `cache()`: push the whole in-memory queue, in order, to the tail of the stored list. */
  function Cache(st: RoomState): (r: (Result<nat, RoomError>, RoomState))
    ensures r.1.queue == st.queue && r.1.users == st.users
    ensures r.0.Ok? <==> st.queue.Some? && st.queue.value != []
    ensures r.0.Ok? ==> r.1.stored.Some? && r.0.value == |r.1.stored.value| && r.0.value >= |st.queue.value|
    ensures r.0.Err? ==> r.1 == st
  {
    if st.queue.None? then (Err(NoQueue), st)
    else if st.queue.value == [] then (Err(EmptyPush), st)
    else
      var old_ := if st.stored.Some? then st.stored.value else [];
      var l := old_ + Values(st.queue.value);
      (Ok(|l|), st.(stored := Some(l)))
  }

  /**
   * Caching appends the queue's values after whatever was stored and answers the
   * new stored length; the in-memory queue and the user hash are untouched.
   */
  lemma CacheAppends(st: RoomState)
    requires st.queue.Some? && st.queue.value != []
    ensures var (r, st') := Cache(st);
      var before := if st.stored.Some? then st.stored.value else [];
      && st'.stored == Some(before + Values(st.queue.value))
      && r == Ok(|before| + |st.queue.value|)
      && st'.queue == st.queue && st'.users == st.users
  {
  }

  /** The state a room has when `Room(room_id)` reopens the stored queue. */
  function Reopened(st: RoomState): RoomState {
    st.(queue := None)
  }

  /**
   * A freshly created room's queue, cached into an absent key and reopened by id,
   * is pending in the store exactly as it was generated.
   */
  lemma CacheThenReopen(q: seq<Role>, users: map<string, string>)
    requires q != []
    ensures var (r, st') := Cache(RoomState(Some(q), None, users));
      r == Ok(|q|) && Pending(Reopened(st')) == Some(q) && Length(Reopened(st')) == |q|
  {
    DecodeValues(q);
    assert [] + Values(q) == Values(q);
  }
}
