/**
 * The four hidden roles, the strings the store keeps for them, and the role
 * multiset a room deals: one Lord, half Rebels, a fixed number of Traitors and
 * the remainder Ministers (`gen_role_seq`).
 *
 * Python's `n // 2` and `(n - 1) // 2` floor; with the positive divisor 2
 * Dafny's Euclidean `/` gives the same value for every int, negative ones included.
 */
module Roles {
  import opened Wrappers

  datatype Role = Lord | Minister | Traitor | Rebel

  /** The enum value, which is what the store holds for a role. */
  function Value(r: Role): string {
    match r
    case Lord => "主公"
    case Minister => "忠臣"
    case Traitor => "内奸"
    case Rebel => "反贼"
  }

  /** `Role(value)`: the member with that value, or None where Python raises ValueError. */
  function FromValue(s: string): (r: Option<Role>)
    ensures r.Some? ==> Value(r.value) == s
  {
    if s == Value(Lord) then Some(Lord)
    else if s == Value(Minister) then Some(Minister)
    else if s == Value(Traitor) then Some(Traitor)
    else if s == Value(Rebel) then Some(Rebel)
    else None
  }

  /** Decoding a stored value gives back the role that was stored. */
  lemma ValueRoundTrip(r: Role)
    ensures FromValue(Value(r)) == Some(r)
  {
  }

  function Max0(k: int): nat {
    if k < 0 then 0 else k
  }

  /** `[r] * k`, which is empty for k <= 0 */
  function Copies(r: Role, k: int): (s: seq<Role>)
    ensures |s| == Max0(k)
  {
    seq(Max0(k), _ => r)
  }

  lemma {:induction false} CopiesCount(r: Role, k: int, x: Role)
    ensures |Copies(r, k)| == Max0(k)
    ensures multiset(Copies(r, k))[x] == if x == r then Max0(k) else 0
    decreases if k < 0 then 0 else k
  {
    if k > 0 {
      CopiesCount(r, k - 1, x);
      assert Copies(r, k) == [r] + Copies(r, k - 1);
    }
  }

  /** The roles `gen_role_seq(n, traitor_cnt)` yields, in the order it yields them. */
  function GenRoleSeq(n: int, traitorCnt: int): (r: seq<Role>)
    ensures |r| >= 1 && r[0] == Lord
    ensures forall i :: 1 <= i < |r| ==> r[i] != Lord
  {
    [Lord]
    + Copies(Rebel, n / 2)
    + (if traitorCnt > 0 then Copies(Traitor, traitorCnt) else [])
    + (if (n - 1) / 2 - traitorCnt > 0 then Copies(Minister, (n - 1) / 2 - traitorCnt) else [])
  }

  /** The sequence as four runs, each possibly empty. */
  lemma GenRoleSeqRuns(n: int, traitorCnt: int)
    ensures GenRoleSeq(n, traitorCnt)
         == [Lord] + Copies(Rebel, n / 2) + Copies(Traitor, traitorCnt) + Copies(Minister, (n - 1) / 2 - traitorCnt)
  {
  }

  /** How often each role occurs in a Lord followed by three runs. */
  lemma RunsCount(a: int, b: int, c: int, x: Role)
    ensures var s := [Lord] + Copies(Rebel, a) + Copies(Traitor, b) + Copies(Minister, c);
      && multiset(s)[x] == (if x == Lord then 1 else 0) + (if x == Rebel then Max0(a) else 0)
                         + (if x == Traitor then Max0(b) else 0) + (if x == Minister then Max0(c) else 0)
      && |s| == 1 + Max0(a) + Max0(b) + Max0(c)
  {
    CopiesCount(Rebel, a, x);
    CopiesCount(Traitor, b, x);
    CopiesCount(Minister, c, x);
  }

  /**
   * The composition: the Lord comes first and only once, then floor(n/2) Rebels,
   * max(traitor_cnt, 0) Traitors and max(floor((n-1)/2) - traitor_cnt, 0) Ministers.
   */
  lemma GenRoleSeqComposition(n: int, traitorCnt: int)
    ensures GenRoleSeq(n, traitorCnt)[0] == Lord
    ensures multiset(GenRoleSeq(n, traitorCnt))[Lord] == 1
    ensures multiset(GenRoleSeq(n, traitorCnt))[Rebel] == Max0(n / 2)
    ensures multiset(GenRoleSeq(n, traitorCnt))[Traitor] == Max0(traitorCnt)
    ensures multiset(GenRoleSeq(n, traitorCnt))[Minister] == Max0((n - 1) / 2 - traitorCnt)
    ensures |GenRoleSeq(n, traitorCnt)| == 1 + Max0(n / 2) + Max0(traitorCnt) + Max0((n - 1) / 2 - traitorCnt)
  {
    GenRoleSeqRuns(n, traitorCnt);
    var a, b, c := n / 2, traitorCnt, (n - 1) / 2 - traitorCnt;
    RunsCount(a, b, c, Lord);
    RunsCount(a, b, c, Rebel);
    RunsCount(a, b, c, Traitor);
    RunsCount(a, b, c, Minister);
  }

  /**
   * For at least one seat the sequence is never shorter than the seat count, and it
   * is exactly as long as the seat count iff 0 <= traitor_cnt <= floor((n-1)/2).
   */
  lemma GenRoleSeqLength(n: int, traitorCnt: int)
    requires n >= 1
    ensures |GenRoleSeq(n, traitorCnt)| >= n
    ensures |GenRoleSeq(n, traitorCnt)| == n <==> 0 <= traitorCnt <= (n - 1) / 2
  {
    GenRoleSeqComposition(n, traitorCnt);
    assert n / 2 + (n - 1) / 2 == n - 1;
  }

  /** A five-seat room with one Traitor deals {Lord, Rebel x2, Traitor, Minister}. */
  lemma FiveSeatRoles()
    ensures multiset(GenRoleSeq(5, 1)) == multiset{Lord, Rebel, Rebel, Traitor, Minister}
  {
    assert Copies(Rebel, 2) == [Rebel, Rebel];
    assert Copies(Traitor, 1) == [Traitor];
    assert Copies(Minister, 1) == [Minister];
    assert GenRoleSeq(5, 1) == [Lord, Rebel, Rebel, Traitor, Minister];
  }

  /** The default `n = 0` still yields a Lord and one Traitor. */
  lemma DefaultSeatRoles()
    ensures GenRoleSeq(0, 1) == [Lord, Traitor]
  {
    assert Copies(Rebel, 0) == [];
    assert Copies(Traitor, 1) == [Traitor];
  }
}
