/**
 * The per-user ledger of games played (`biz/user.py`): one record per
 * (game mode, role) pair, at most one new record every five minutes, luck and
 * reputation counters derived from the record count, and the trimmed snapshot
 * `__get_state__` builds. That method is not pickle's `__getstate__` hook, so
 * saving the users never calls it; the snapshot is modelled as the method computes it.
 *
 * Times are integers in microseconds, the resolution of Python's `datetime`. The
 * record key is the text that is hashed; the MD5 digest itself is not modelled.
 * A dict's insertion order is kept as a sequence of distinct keys beside the map.
 */
module Users {
  import opened Wrappers
  import opened PyText

  const FiveMinutes: int := 300_000_000

  datatype Record = Record(gameMode: string, role: string, rTime: int)

  /** The text `r_key` digests: game mode, a tab, role. */
  function RKey(gameMode: string, role: string): (k: string)
    ensures |k| == |gameMode| + 1 + |role|
  {
    gameMode + "\t" + role
  }

  /** A game mode without a tab fixes the split, so distinct pairs get distinct keys. */
  lemma RKeyInjective(g1: string, r1: string, g2: string, r2: string)
    requires '\t' !in g1 && '\t' !in g2
    requires RKey(g1, r1) == RKey(g2, r2)
    ensures g1 == g2 && r1 == r2
  {
    IndexOfPrefix(g1, '\t', "\t" + r1);
    IndexOfPrefix(g2, '\t', "\t" + r2);
    assert RKey(g1, r1) == g1 + ("\t" + r1) && RKey(g2, r2) == g2 + ("\t" + r2);
    assert |g1| == |g2|;
    assert g1 == RKey(g1, r1)[..|g1|] && g2 == RKey(g2, r2)[..|g2|];
    assert r1 == RKey(g1, r1)[|g1| + 1..] && r2 == RKey(g2, r2)[|g2| + 1..];
  }

  /** A user's fields as a value: the record dict as its key order plus its map. */
  datatype UserState = UserState(
    name: string,
    order: seq<string>,
    records: map<string, Record>,
    lastRecordTime: Option<int>,
    luckConsumed: int,
    repConsumed: int)

  /** The key order lists each key of the dict once. */
  predicate WellOrdered(st: UserState) {
    && (forall i, j :: 0 <= i < j < |st.order| ==> st.order[i] != st.order[j])
    && (forall k :: k in st.order ==> k in st.records)
    && (forall k :: k in st.records ==> k in st.order)
  }

  /** `User(name)` */
  function NewUser(name: string): (st: UserState)
    ensures WellOrdered(st)
  {
    UserState(name, [], map[], None, 0, 0)
  }

  /** `records.values()`, in insertion order. */
  function Values(st: UserState): (vs: seq<Record>)
    requires WellOrdered(st)
    ensures |vs| == |st.order| && forall i :: 0 <= i < |vs| ==> vs[i] == st.records[st.order[i]]
  {
    seq(|st.order|, i requires 0 <= i < |st.order| => st.records[st.order[i]])
  }

  /** There is no earlier record, or this one is more than five minutes after it. */
  predicate RecordAllowed(last: Option<int>, t: int) {
    last.None? || t - last.value > FiveMinutes
  }

  /** `add_record(game_mode, role)` at time `t`: whether it was added, and the new user. */
  function AddRecordTo(st: UserState, gameMode: string, role: string, t: int): (r: (bool, UserState))
    ensures r.0 ==> RKey(gameMode, role) in r.1.records && r.1.records[RKey(gameMode, role)].rTime == t
    ensures r.0 ==> r.1.lastRecordTime == Some(t)
    ensures !r.0 ==> r.1 == st
  {
    if RecordAllowed(st.lastRecordTime, t) then
      var key := RKey(gameMode, role);
      (true, st.(order := if key in st.records then st.order else st.order + [key],
                 records := st.records[key := Record(gameMode, role, t)],
                 lastRecordTime := Some(t)))
    else (false, st)
  }

  /**
   * A record goes in iff it comes more than five minutes after the last one. It is
   * stored under its key and sets the last record time; otherwise nothing changes.
   */
  lemma AddRecordSpec(st: UserState, gameMode: string, role: string, t: int)
    requires WellOrdered(st)
    ensures AddRecordTo(st, gameMode, role, t).0 <==> st.lastRecordTime.None? || t - st.lastRecordTime.value > FiveMinutes
    ensures var (ok, st') := AddRecordTo(st, gameMode, role, t);
      && WellOrdered(st')
      && (ok ==> st'.records == st.records[RKey(gameMode, role) := Record(gameMode, role, t)] && st'.lastRecordTime == Some(t))
      && (ok ==> st'.luckConsumed == st.luckConsumed && st'.repConsumed == st.repConsumed && st'.name == st.name)
      && (!ok ==> st' == st)
  {
    var key := RKey(gameMode, role);
    if RecordAllowed(st.lastRecordTime, t) && key !in st.records {
      var o := st.order + [key];
      forall i, j | 0 <= i < j < |o| ensures o[i] != o[j] {
        if j == |st.order| {
          assert o[i] in st.records;
        }
      }
    }
  }

  /** Recording a pair that is already recorded replaces its entry: the record count stays. */
  lemma AddRecordReplaces(st: UserState, gameMode: string, role: string, t: int)
    requires WellOrdered(st) && RKey(gameMode, role) in st.records
    ensures |AddRecordTo(st, gameMode, role, t).1.order| == |st.order|
  {
  }

  /** A new pair, once accepted, adds exactly one record. */
  lemma AddRecordAdds(st: UserState, gameMode: string, role: string, t: int)
    requires WellOrdered(st) && RKey(gameMode, role) !in st.records && AddRecordTo(st, gameMode, role, t).0
    ensures |AddRecordTo(st, gameMode, role, t).1.order| == |st.order| + 1
  {
  }

  /**
   * `add_record` as written: `Record(game_mode, role)` takes the default `r_time`,
   * evaluated once when the class was defined, so every record carries that time.
   */
  function AddRecordAsWritten(st: UserState, gameMode: string, role: string, definedAt: int): (r: (bool, UserState))
    ensures r.0 ==> RKey(gameMode, role) in r.1.records && r.1.records[RKey(gameMode, role)].rTime == definedAt && r.1.lastRecordTime == Some(definedAt)
    ensures !r.0 ==> r.1 == st
  {
    AddRecordTo(st, gameMode, role, definedAt)
  }

  /** As written, once a user holds a record made in this process, every later record is refused. */
  lemma AddRecordAsWrittenRefusesSecond(st: UserState, g1: string, r1: string, g2: string, r2: string, definedAt: int)
    requires AddRecordAsWritten(st, g1, r1, definedAt).0
    ensures AddRecordAsWritten(AddRecordAsWritten(st, g1, r1, definedAt).1, g2, r2, definedAt)
         == (false, AddRecordAsWritten(st, g1, r1, definedAt).1)
  {
  }

  /** With the time of the call, two records more than five minutes apart are both accepted. */
  lemma AddRecordAfterGap(st: UserState, g1: string, r1: string, t1: int, g2: string, r2: string, t2: int)
    requires AddRecordTo(st, g1, r1, t1).0 && t2 - t1 > FiveMinutes
    ensures AddRecordTo(AddRecordTo(st, g1, r1, t1).1, g2, r2, t2).0
  {
  }

  /** A dict with its key order: as many keys in the order as entries in the dict. */
  lemma RecordCount(st: UserState)
    ensures WellOrdered(st) ==> |st.order| == |st.records|
  {
    if WellOrdered(st) {
      DistinctSize(st.order);
      assert (set k | k in st.order) == st.records.Keys;
    }
  }

  lemma {:induction false} DistinctSize(o: seq<string>)
    requires forall i, j :: 0 <= i < j < |o| ==> o[i] != o[j]
    ensures |set k | k in o| == |o|
  {
    if o != [] {
      DistinctSize(o[1..]);
      assert (set k | k in o) == (set k | k in o[1..]) + {o[0]};
      assert o[0] !in (set k | k in o[1..]);
    }
  }

  /** `luck_num`: the number of records less the luck consumed. */
  function LuckNum(st: UserState): (n: int)
    ensures WellOrdered(st) ==> n == |st.records| - st.luckConsumed
  {
    RecordCount(st);
    |st.order| - st.luckConsumed
  }

  /** `rep_num`: the number of records less the reputation consumed. */
  function RepNum(st: UserState): (n: int)
    ensures WellOrdered(st) ==> n == |st.records| - st.repConsumed
  {
    RecordCount(st);
    |st.order| - st.repConsumed
  }

  /** `sorted(records, key=r_time)`: a stable insertion sort by record time. */
  function SortByTime(rs: seq<Record>): (s: seq<Record>)
    ensures |s| == |rs|
  {
    if rs == [] then [] else InsertByTime(SortByTime(rs[..|rs| - 1]), rs[|rs| - 1])
  }

  /** Insert after every record that is not later, so equal times keep their order. */
  function InsertByTime(s: seq<Record>, r: Record): (t: seq<Record>)
    ensures |t| == |s| + 1
  {
    if s == [] then [r]
    else if s[|s| - 1].rTime <= r.rTime then s + [r]
    else InsertByTime(s[..|s| - 1], r) + [s[|s| - 1]]
  }

  predicate SortedByTime(s: seq<Record>) {
    forall i, j :: 0 <= i < j < |s| ==> s[i].rTime <= s[j].rTime
  }

  lemma {:induction false} InsertByTimeMultiset(s: seq<Record>, r: Record)
    ensures multiset(InsertByTime(s, r)) == multiset(s) + multiset{r}
    decreases |s|
  {
    if s != [] && s[|s| - 1].rTime > r.rTime {
      InsertByTimeMultiset(s[..|s| - 1], r);
      assert s == s[..|s| - 1] + [s[|s| - 1]];
    }
  }

  /** Inserting a record no later than a bound into records no later than it keeps them under it. */
  lemma {:induction false} InsertByTimeBounded(s: seq<Record>, r: Record, bound: int)
    requires forall i :: 0 <= i < |s| ==> s[i].rTime <= bound
    requires r.rTime <= bound
    ensures forall i :: 0 <= i < |InsertByTime(s, r)| ==> InsertByTime(s, r)[i].rTime <= bound
    decreases |s|
  {
    if s != [] && s[|s| - 1].rTime > r.rTime {
      InsertByTimeBounded(s[..|s| - 1], r, bound);
    }
  }

  lemma {:induction false} InsertByTimeSorted(s: seq<Record>, r: Record)
    requires SortedByTime(s)
    ensures SortedByTime(InsertByTime(s, r))
    decreases |s|
  {
    if s != [] {
      var last := s[|s| - 1];
      if last.rTime > r.rTime {
        var init := s[..|s| - 1];
        InsertByTimeSorted(init, r);
        InsertByTimeBounded(init, r, last.rTime);
        var t := InsertByTime(init, r);
        assert InsertByTime(s, r) == t + [last];
      } else {
        assert InsertByTime(s, r) == s + [r];
      }
    }
  }

  /** The records stamped at time `t`, in their order. */
  function AtTime(s: seq<Record>, t: int): (a: seq<Record>)
    ensures |a| <= |s|
  {
    if s == [] then [] else AtTime(s[..|s| - 1], t) + (if s[|s| - 1].rTime == t then [s[|s| - 1]] else [])
  }

  /** Records at one time keep their order through an insertion: the new record goes after all of them. */
  lemma {:induction false} InsertByTimeStable(s: seq<Record>, r: Record, t: int)
    ensures AtTime(InsertByTime(s, r), t) == AtTime(s, t) + (if r.rTime == t then [r] else [])
    decreases |s|
  {
    if s == [] {
      assert [r][..0] == [];
    } else if s[|s| - 1].rTime <= r.rTime {
      assert (s + [r])[..|s|] == s;
    } else {
      var u := InsertByTime(s[..|s| - 1], r);
      InsertByTimeStable(s[..|s| - 1], r, t);
      assert (u + [s[|s| - 1]])[..|u|] == u;
    }
  }

  lemma {:induction false} SortByTimeStable(rs: seq<Record>, t: int)
    ensures AtTime(SortByTime(rs), t) == AtTime(rs, t)
    decreases |rs|
  {
    if rs != [] {
      SortByTimeStable(rs[..|rs| - 1], t);
      InsertByTimeStable(SortByTime(rs[..|rs| - 1]), rs[|rs| - 1], t);
    }
  }

  /** The sort orders by time, keeps every record, and keeps records of equal time in their order. */
  lemma SortByTimeSpec(rs: seq<Record>)
    ensures SortedByTime(SortByTime(rs))
    ensures multiset(SortByTime(rs)) == multiset(rs)
    ensures forall t :: AtTime(SortByTime(rs), t) == AtTime(rs, t)
  {
    SortByTimeSorted(rs);
    SortByTimeMultiset(rs);
    forall t {
      SortByTimeStable(rs, t);
    }
  }

  lemma {:induction false} AllAtTime(s: seq<Record>, t: int)
    requires forall i :: 0 <= i < |s| ==> s[i].rTime == t
    ensures AtTime(s, t) == s
    decreases |s|
  {
    if s != [] {
      AllAtTime(s[..|s| - 1], t);
    }
  }

  /**
   * Records that all carry one time, as every record does under the frozen
   * `r_time` default, come out of the sort in insertion order; so which
   * records a trimmed snapshot drops is decided by that order alone.
   */
  lemma SortByTimeSameTime(rs: seq<Record>, t: int)
    requires forall i :: 0 <= i < |rs| ==> rs[i].rTime == t
    ensures SortByTime(rs) == rs
  {
    var s := SortByTime(rs);
    SortByTimeSpec(rs);
    forall i | 0 <= i < |s|
      ensures s[i].rTime == t
    {
      assert s[i] in multiset(s);
      assert s[i] in rs;
    }
    AllAtTime(rs, t);
    AllAtTime(s, t);
  }

  lemma {:induction false} SortByTimeSorted(rs: seq<Record>)
    ensures SortedByTime(SortByTime(rs))
    decreases |rs|
  {
    if rs != [] {
      var init := rs[..|rs| - 1];
      SortByTimeSorted(init);
      InsertByTimeSorted(SortByTime(init), rs[|rs| - 1]);
    }
  }

  lemma {:induction false} SortByTimeMultiset(rs: seq<Record>)
    ensures multiset(SortByTime(rs)) == multiset(rs)
    decreases |rs|
  {
    if rs != [] {
      var init, last := rs[..|rs| - 1], rs[|rs| - 1];
      SortByTimeMultiset(init);
      InsertByTimeMultiset(SortByTime(init), last);
      assert rs == init + [last];
    }
  }

  /** What `__get_state__` returns: the user's fields with a trimmed record list and counters. */
  datatype Dump = Dump(name: string, records: seq<Record>, lastRecordTime: Option<int>, luckConsumed: int, repConsumed: int)

  function Min(a: int, b: int): int {
    if a <= b then a else b
  }

  /**
   * `__get_state__()`: drop the m = min(luck_consumed, rep_consumed) oldest records
   * and take m off both counters; with m = 0 keep the records as they are.
   */
  function GetState(st: UserState): (d: Dump)
    requires WellOrdered(st)
    ensures d.name == st.name && d.lastRecordTime == st.lastRecordTime
  {
    var m := Min(st.luckConsumed, st.repConsumed);
    if m != 0 then
      Dump(st.name, PyFrom(SortByTime(Values(st)), m), st.lastRecordTime, st.luckConsumed - m, st.repConsumed - m)
    else
      Dump(st.name, Values(st), st.lastRecordTime, st.luckConsumed, st.repConsumed)
  }

  /** With nothing consumed by both counters the snapshot keeps every record and both counters. */
  lemma GetStateKeepsAll(st: UserState)
    requires WellOrdered(st) && Min(st.luckConsumed, st.repConsumed) == 0
    ensures GetState(st).records == Values(st)
    ensures GetState(st).luckConsumed == st.luckConsumed && GetState(st).repConsumed == st.repConsumed
  {
  }

  /**
   * When 0 <= m <= #records the snapshot holds the records less the m oldest, and
   * a user restored from it has the same luck and reputation.
   */
  lemma GetStatePreservesCounters(st: UserState)
    requires WellOrdered(st)
    requires 0 <= Min(st.luckConsumed, st.repConsumed) <= |st.order|
    ensures |GetState(st).records| - GetState(st).luckConsumed == LuckNum(st)
    ensures |GetState(st).records| - GetState(st).repConsumed == RepNum(st)
    ensures |GetState(st).records| == |st.order| - Min(st.luckConsumed, st.repConsumed)
  {
  }

  /** The dropped records are the oldest: none of those kept is earlier than one dropped. */
  lemma GetStateDropsOldest(st: UserState)
    requires WellOrdered(st)
    requires 0 < Min(st.luckConsumed, st.repConsumed) <= |st.order|
    ensures var m := Min(st.luckConsumed, st.repConsumed);
      var sorted := SortByTime(Values(st));
      && GetState(st).records == sorted[m..]
      && multiset(sorted[..m]) + multiset(GetState(st).records) == multiset(Values(st))
      && forall x, y :: x in sorted[..m] && y in GetState(st).records ==> x.rTime <= y.rTime
  {
    var m := Min(st.luckConsumed, st.repConsumed);
    var sorted := SortByTime(Values(st));
    SortByTimeSpec(Values(st));
    SortedSplit(sorted, m);
  }

  /** Cutting records sorted by time leaves no record of the tail earlier than one of the head. */
  lemma SortedSplit(s: seq<Record>, m: nat)
    requires SortedByTime(s) && m <= |s|
    ensures multiset(s[..m]) + multiset(s[m..]) == multiset(s)
    ensures forall x, y :: x in s[..m] && y in s[m..] ==> x.rTime <= y.rTime
  {
    assert s == s[..m] + s[m..];
    forall x, y | x in s[..m] && y in s[m..] ensures x.rTime <= y.rTime {
      var i :| 0 <= i < m && s[..m][i] == x;
      var j :| 0 <= j < |s| - m && s[m..][j] == y;
      assert s[i] == x && s[m + j] == y;
    }
  }

  class User {
    const name: string
    var order: seq<string>
    var records: map<string, Record>
    var lastRecordTime: Option<int>
    var luckConsumed: int
    var repConsumed: int

    ghost function State(): UserState
      reads this
    {
      UserState(name, order, records, lastRecordTime, luckConsumed, repConsumed)
    }

    /** `User(name)` */
    constructor (name: string)
      ensures State() == NewUser(name)
    {
      this.name := name;
      order := [];
      records := map[];
      lastRecordTime := None;
      luckConsumed := 0;
      repConsumed := 0;
    }

    /** `add_record(game_mode, role)`, the record taking the time of the call. */
    method AddRecord(gameMode: string, role: string, now: int) returns (ok: bool)
      modifies this
      ensures (ok, State()) == AddRecordTo(old(State()), gameMode, role, now)
    {
      if lastRecordTime.None? || now - lastRecordTime.value > FiveMinutes {
        var key := RKey(gameMode, role);
        if key !in records {
          order := order + [key];
        }
        records := records[key := Record(gameMode, role, now)];
        lastRecordTime := Some(now);
        return true;
      }
      return false;
    }
  }

  class UserMgr {
    var userDict: map<string, User>

    constructor ()
      ensures userDict == map[]
    {
      userDict := map[];
    }

    /** `get_user(name)`: the user already known under the name, else a new one, remembered. */
    method GetUser(name: string) returns (u: User)
      modifies this
      ensures name in old(userDict) ==> u == old(userDict[name]) && userDict == old(userDict)
      ensures name !in old(userDict) ==> fresh(u) && u.State() == NewUser(name) && userDict == old(userDict)[name := u]
      ensures name in userDict && userDict[name] == u
    {
      var created := new User(name);
      if name in userDict {
        u := userDict[name];
      } else {
        userDict := userDict[name := created];
        u := created;
      }
    }
  }
}
