/**
 * The turn engine of one game: an event centre over the seat cycle the seat check
 * produced, the opening event that offers each seat three heroes (the Lord: the
 * three monarch candidates and the last two pool entries) and collects the picks,
 * and the cycle event that visits every seat once and advances the turn index.
 *
 * The manager queue the picks arrive on is a plain sequence of picks; sending the
 * offer card and printing a turn are recorded in the `sent` and `log` fields.
 */
module Events {
  import opened Wrappers
  import opened PyText
  import opened CardRegion

  /** One `(user_id, hero)` pair read from the queue. */
  datatype Pick = Pick(userId: string, hero: string)

  /** The hero card sent to one seat: the room, the seat's position and the heroes offered. */
  datatype Offer = Offer(userId: string, roomId: string, pos: nat, heroes: seq<string>)

  /** One turn of the cycle pass: the position and the seat's user. */
  datatype Visit = Visit(pos: nat, userId: string)

  datatype EventError =
    | AttributeError   // an attribute the seat record does not have
    | SampleError      // `random.sample` with a sample larger than the population, or negative

  /**
   * The order in which `settle_cycle` visits the seats: the cycle itself at turn
   * index 0, else `cycle[i:]` followed by `cycle[0:i]`.
   */
  function VisitOrder(cycle: seq<UserRole>, cur: int): (order: seq<UserRole>)
    ensures |order| == |cycle|
  {
    if cur != 0 then PyFrom(cycle, cur) + PyTo(cycle, cur) else cycle
  }

  /** With 0 <= cur_idx < len, position p visits seat (cur_idx + p - 1) mod len. */
  lemma VisitOrderRotates(cycle: seq<UserRole>, cur: int, p: int)
    requires 0 <= cur < |cycle| && 1 <= p <= |cycle|
    ensures VisitOrder(cycle, cur)[p - 1] == cycle[(cur + p - 1) % |cycle|]
  {
    var n := |cycle|;
    WrapOnce(cur + p - 1, n);
    if cur != 0 {
      assert SliceBound(cur, n) == cur;
      RotatedAt(cycle, cur, p - 1);
    }
  }

  /** An index below twice the length wraps around at most once. */
  lemma WrapOnce(a: int, n: int)
    requires 0 <= a < 2 * n
    ensures a % n == if a < n then a else a - n
  {
  }

  /** Index i of `s[k:] + s[:k]` is index k + i of `s`, wrapped around at the end. */
  lemma RotatedAt<T>(s: seq<T>, k: nat, i: nat)
    requires k <= |s| && i < |s|
    ensures (s[k..] + s[..k])[i] == if k + i < |s| then s[k + i] else s[k + i - |s|]
  {
  }

  /** Once cur_idx reaches the seat count the first slice is empty: the seats come in their own order. */
  lemma VisitOrderPastEnd(cycle: seq<UserRole>, cur: int)
    requires cur >= |cycle|
    ensures VisitOrder(cycle, cur) == cycle
  {
    if cur != 0 {
      assert PyFrom(cycle, cur) == [] && PyTo(cycle, cur) == cycle;
    }
  }

  /** Whatever the turn index, a pass visits every seat exactly once. */
  lemma VisitOrderPermutes(cycle: seq<UserRole>, cur: int)
    ensures multiset(VisitOrder(cycle, cur)) == multiset(cycle)
  {
    if cur != 0 {
      var k := SliceBound(cur, |cycle|);
      assert cycle == cycle[..k] + cycle[k..];
    }
  }

  /** The share of the hero pool position `pos` is offered: the last two for the Lord, else three consecutive entries. */
  function PoolPart(heroPool: seq<string>, pos: int): seq<string> {
    if pos == 1 then PyFrom(heroPool, -2) else PySlice(heroPool, (pos - 2) * 3, (pos - 1) * 3)
  }

  /** The heroes offered at a position: the monarch candidates first at position 1. */
  function Offered(monarchPool: seq<string>, heroPool: seq<string>, pos: int): seq<string> {
    (if pos == 1 then monarchPool else []) + PoolPart(heroPool, pos)
  }

  /** With u seats and a pool of 3u - 1 heroes, position p >= 2 gets pool[3(p-2) : 3(p-1)] and the Lord the last two. */
  lemma OfferedShares(monarchPool: seq<string>, heroPool: seq<string>, u: int, p: int)
    requires u >= 1 && |heroPool| == 3 * u - 1 && 1 <= p <= u
    ensures p == 1 ==> Offered(monarchPool, heroPool, p) == monarchPool + heroPool[3 * u - 3..]
    ensures p >= 2 ==> Offered(monarchPool, heroPool, p) == heroPool[3 * (p - 2)..3 * (p - 1)]
    ensures p >= 2 ==> |Offered(monarchPool, heroPool, p)| == 3
  {
  }

  /** The non-Lord shares of positions 2..k, in position order. */
  function SeatShares(heroPool: seq<string>, k: int): seq<string>
    decreases if k < 0 then 0 else k
  {
    if k <= 1 then [] else SeatShares(heroPool, k - 1) + PoolPart(heroPool, k)
  }

  lemma {:induction false} SeatSharesPrefix(heroPool: seq<string>, k: int)
    requires 1 <= k && 3 * (k - 1) <= |heroPool|
    ensures SeatShares(heroPool, k) == heroPool[..3 * (k - 1)]
    decreases k
  {
    if k > 1 {
      SeatSharesPrefix(heroPool, k - 1);
      assert PoolPart(heroPool, k) == heroPool[3 * (k - 2)..3 * (k - 1)];
      assert heroPool[..3 * (k - 2)] + heroPool[3 * (k - 2)..3 * (k - 1)] == heroPool[..3 * (k - 1)];
    }
  }

  /** The shares of positions 2..u and then the Lord's two cover the pool exactly, in order. */
  lemma PoolPartition(heroPool: seq<string>, u: int)
    requires u >= 1 && |heroPool| == 3 * u - 1
    ensures SeatShares(heroPool, u) + PoolPart(heroPool, 1) == heroPool
  {
    SeatSharesPrefix(heroPool, u);
    assert PoolPart(heroPool, 1) == heroPool[3 * u - 3..];
  }

  /** Where position p's share starts in the pool, and how many entries it takes. */
  function ShareStart(u: int, p: int): int {
    if p == 1 then 3 * u - 3 else 3 * (p - 2)
  }

  function ShareWidth(p: int): nat {
    if p == 1 then 2 else 3
  }

  lemma PoolPartAt(heroPool: seq<string>, u: int, p: int)
    requires u >= 1 && |heroPool| == 3 * u - 1 && 1 <= p <= u
    ensures 0 <= ShareStart(u, p) && ShareStart(u, p) + ShareWidth(p) <= |heroPool|
    ensures PoolPart(heroPool, p) == heroPool[ShareStart(u, p)..ShareStart(u, p) + ShareWidth(p)]
  {
  }

  /** Two different positions draw on different pool indices. */
  lemma SharesApart(u: int, p: int, q: int, i: int, j: int)
    requires 1 <= p <= u && 1 <= q <= u && p != q
    requires ShareStart(u, p) <= i < ShareStart(u, p) + ShareWidth(p)
    requires ShareStart(u, q) <= j < ShareStart(u, q) + ShareWidth(q)
    ensures i != j
  {
  }

  /** A pool of distinct heroes offers no hero of the pool to two different positions. */
  lemma SharesDisjoint(heroPool: seq<string>, u: int, p: int, q: int)
    requires u >= 1 && |heroPool| == 3 * u - 1 && 1 <= p <= u && 1 <= q <= u && p != q
    requires forall i, j :: 0 <= i < j < |heroPool| ==> heroPool[i] != heroPool[j]
    ensures forall x :: x in PoolPart(heroPool, p) ==> x !in PoolPart(heroPool, q)
  {
    PoolPartAt(heroPool, u, p);
    PoolPartAt(heroPool, u, q);
    var sp, sq := ShareStart(u, p), ShareStart(u, q);
    var a, b := PoolPart(heroPool, p), PoolPart(heroPool, q);
    forall m, k | 0 <= m < |a| && 0 <= k < |b| ensures a[m] != b[k] {
      assert a[m] == heroPool[sp + m] && b[k] == heroPool[sq + k];
      SharesApart(u, p, q, sp + m, sq + k);
    }
  }

  /** `random.sample(population, k)`: k entries drawn from the population without replacement, in some order. */
  predicate IsSample(s: seq<string>, population: seq<string>, k: int) {
    |s| == k && multiset(s) <= multiset(population)
  }

  /** The cards one opening pass sends, position by position. */
  function StartOffers(order: seq<UserRole>, roomId: string, monarchPool: seq<string>, heroPool: seq<string>): (r: seq<Offer>)
    ensures |r| == |order|
    ensures forall i :: 0 <= i < |order| ==> r[i].userId == order[i].userId && r[i].pos == i + 1 && r[i].roomId == roomId
    ensures |order| >= 1 ==> r[0].heroes == Offered(monarchPool, heroPool, 1)
  {
    seq(|order|, i requires 0 <= i < |order| => Offer(order[i].userId, roomId, i + 1, Offered(monarchPool, heroPool, i + 1)))
  }

  /** The turns one cycle pass takes, position by position. */
  function TurnLog(order: seq<UserRole>): (r: seq<Visit>)
    ensures |r| == |order|
    ensures forall i :: 0 <= i < |order| ==> r[i].pos == i + 1 && r[i].userId == order[i].userId
  {
    seq(|order|, i requires 0 <= i < |order| => Visit(i + 1, order[i].userId))
  }

  /** A pass visits positions 1..len in increasing order, each seat exactly once. */
  lemma TurnLogPositions(cycle: seq<UserRole>, cur: int)
    ensures |TurnLog(VisitOrder(cycle, cur))| == |cycle|
    ensures forall i :: 0 <= i < |cycle| ==> TurnLog(VisitOrder(cycle, cur))[i].pos == i + 1
    ensures forall s :: s in cycle ==> exists i :: 0 <= i < |cycle| && TurnLog(VisitOrder(cycle, cur))[i].userId == s.userId
  {
    VisitOrderPermutes(cycle, cur);
    var order := VisitOrder(cycle, cur);
    forall s | s in cycle ensures exists i :: 0 <= i < |cycle| && TurnLog(order)[i].userId == s.userId {
      assert s in multiset(order);
      var i :| 0 <= i < |order| && order[i] == s;
      assert TurnLog(order)[i].userId == s.userId;
    }
  }

  /** Index of the first seat of the user, or the seat count. */
  function FirstSeat(cycle: seq<UserRole>, userId: string): (i: nat)
    ensures i <= |cycle| && (i < |cycle| ==> cycle[i].userId == userId)
    ensures forall j :: 0 <= j < i ==> cycle[j].userId != userId
  {
    if cycle == [] then 0 else if cycle[0].userId == userId then 0 else 1 + FirstSeat(cycle[1..], userId)
  }

  /** `set_role_hero` as intended: the first seat of the user takes the hero; no seat, no change. */
  function SetHero(cycle: seq<UserRole>, userId: string, hero: string): (r: seq<UserRole>)
    ensures |r| == |cycle|
    ensures forall i :: 0 <= i < |cycle| ==> r[i].userId == cycle[i].userId && r[i].role == cycle[i].role
  {
    var i := FirstSeat(cycle, userId);
    if i == |cycle| then cycle else cycle[i := cycle[i].(heroId := HeroId(hero))]
  }

  /** Only the first seat of the user changes, and only its hero; with no such seat nothing changes. */
  lemma SetHeroFirstMatch(cycle: seq<UserRole>, userId: string, hero: string)
    ensures |SetHero(cycle, userId, hero)| == |cycle|
    ensures (forall i :: 0 <= i < |cycle| ==> cycle[i].userId != userId) ==> SetHero(cycle, userId, hero) == cycle
    ensures forall i :: 0 <= i < |cycle| && cycle[i].userId == userId && (forall j :: 0 <= j < i ==> cycle[j].userId != userId) ==>
      && SetHero(cycle, userId, hero)[i] == cycle[i].(heroId := HeroId(hero))
      && (forall j :: 0 <= j < |cycle| && j != i ==> SetHero(cycle, userId, hero)[j] == cycle[j])
  {
    var f := FirstSeat(cycle, userId);
    forall i | 0 <= i < |cycle| && cycle[i].userId == userId && (forall j :: 0 <= j < i ==> cycle[j].userId != userId)
      ensures f == i
    {
      assert f <= i && cycle[f].userId == userId;
    }
  }

  /** `set_role_hero` as written: it calls `set_hero` on the seat, a method the seat record does not have. */
  function SetRoleHeroAsWritten(cycle: seq<UserRole>, userId: string, hero: string): (r: Result<seq<UserRole>, EventError>)
    ensures r.Ok? ==> r.value == cycle
  {
    if FirstSeat(cycle, userId) < |cycle| then Err(AttributeError) else Ok(cycle)
  }

  /** As written, every pick whose user holds a seat fails; only picks of strangers get through, changing nothing. */
  lemma SetRoleHeroAsWrittenFails(cycle: seq<UserRole>, userId: string, hero: string)
    ensures SetRoleHeroAsWritten(cycle, userId, hero).Err? <==> exists i :: 0 <= i < |cycle| && cycle[i].userId == userId
    ensures SetRoleHeroAsWritten(cycle, userId, hero).Ok? ==> SetRoleHeroAsWritten(cycle, userId, hero).value == cycle
  {
  }

  /** The picks applied in queue order. */
  function ApplyPicks(cycle: seq<UserRole>, picks: seq<Pick>): (r: seq<UserRole>)
    ensures |r| == |cycle|
    decreases |picks|
  {
    if picks == [] then cycle
    else ApplyPicks(SetHero(cycle, picks[0].userId, picks[0].hero), picks[1..])
  }

  /** Picks only ever set heroes: the seats keep their users, roles and order. */
  lemma {:induction false} ApplyPicksKeepsSeats(cycle: seq<UserRole>, picks: seq<Pick>)
    ensures |ApplyPicks(cycle, picks)| == |cycle|
    ensures forall i :: 0 <= i < |cycle| ==>
      ApplyPicks(cycle, picks)[i].userId == cycle[i].userId && ApplyPicks(cycle, picks)[i].role == cycle[i].role
    decreases |picks|
  {
    if picks != [] {
      var next := SetHero(cycle, picks[0].userId, picks[0].hero);
      SetHeroFirstMatch(cycle, picks[0].userId, picks[0].hero);
      ApplyPicksKeepsSeats(next, picks[1..]);
    }
  }

  /**
   * One cycle pass as written: the first turn prints `hero_name`, which the seat
   * record does not have, so a pass over any seat fails before the turn index moves.
   */
  function TurnPassAsWritten(cycle: seq<UserRole>, cur: int): (r: Result<int, EventError>)
    ensures r.Ok? ==> cycle == [] && r.value == cur
  {
    if cycle == [] then Ok(cur) else Err(AttributeError)
  }

  lemma TurnPassAsWrittenFails(cycle: seq<UserRole>, cur: int)
    ensures TurnPassAsWritten(cycle, cur).Err? <==> cycle != []
    ensures TurnPassAsWritten(cycle, cur).Ok? ==> TurnPassAsWritten(cycle, cur).value == cur
  {
  }

  /** One of the per-seat lists `Event.__init__` builds. */
  class EventList {
    var events: seq<string>

    constructor ()
      ensures events == []
    {
      events := [];
    }
  }

  /** `[[]] * n`: n entries that are all the same list. */
  method SharedLists(n: nat) returns (r: seq<EventList>)
    ensures |r| == n
    ensures forall i :: 0 <= i < n ==> fresh(r[i]) && r[i] == r[0] && r[i].events == []
  {
    var shared := new EventList();
    r := seq(n, _ => shared);
  }

  class EventCenter {
    const roomId: string
    var roleCycle: seq<UserRole>
    var curIdx: int
    var queue: seq<Pick>
    var sent: seq<Offer>
    var log: seq<Visit>

    /** `EventCenter(room_id, role_cycle)` */
    constructor (roomId: string, roleCycle: seq<UserRole>, picks: seq<Pick>)
      ensures this.roomId == roomId && this.roleCycle == roleCycle && curIdx == 0
      ensures queue == picks && sent == [] && log == []
    {
      this.roomId := roomId;
      this.roleCycle := roleCycle;
      curIdx := 0;
      queue := picks;
      sent := [];
      log := [];
    }

    /** `settle_cycle(event)` for the opening event: each seat is offered its heroes, in visit order. */
    method SettleStart(ev: GameStartEvent)
      requires ev.center == this
      modifies this
      ensures sent == old(sent) + StartOffers(VisitOrder(old(roleCycle), old(curIdx)), roomId, ev.monarchPool, ev.heroPool)
      ensures roleCycle == old(roleCycle) && curIdx == old(curIdx) && queue == old(queue) && log == old(log)
    {
      var order := VisitOrder(roleCycle, curIdx);
      ghost var offers := StartOffers(order, roomId, ev.monarchPool, ev.heroPool);
      var i := 0;
      while i < |order|
        invariant 0 <= i <= |order|
        invariant sent == old(sent) + offers[..i]
        invariant roleCycle == old(roleCycle) && curIdx == old(curIdx) && queue == old(queue) && log == old(log)
      {
        ev.Each(order[i], i + 1);
        assert offers[..i + 1] == offers[..i] + [offers[i]];
        i := i + 1;
      }
      assert offers[..|order|] == offers;
    }

    /**
     * `settle_cycle(event)` for the cycle event: the visit order is fixed before the
     * first turn, so the turn index the turns advance does not reorder the pass.
     */
    method SettleTurns(ev: GameCycleEvent)
      requires ev.center == this
      modifies this
      ensures log == old(log) + TurnLog(VisitOrder(old(roleCycle), old(curIdx)))
      ensures curIdx == old(curIdx) + |roleCycle|
      ensures roleCycle == old(roleCycle) && queue == old(queue) && sent == old(sent)
    {
      var order := VisitOrder(roleCycle, curIdx);
      ghost var turns := TurnLog(order);
      var i := 0;
      while i < |order|
        invariant 0 <= i <= |order|
        invariant log == old(log) + turns[..i]
        invariant curIdx == old(curIdx) + i
        invariant roleCycle == old(roleCycle) && queue == old(queue) && sent == old(sent)
      {
        ev.Each(order[i], i + 1);
        assert turns[..i + 1] == turns[..i] + [turns[i]];
        i := i + 1;
      }
      assert turns[..|order|] == turns;
    }

    /**
     * `start()`: the opening event, then one cycle pass. The two `random.sample`
     * draws are the samples given; a population too small for them fails.
     */
    method Start(monarchs: seq<string>, allHeros: seq<string>, monarchSample: seq<string>, heroSample: seq<string>)
      returns (r: Result<(), EventError>)
      requires |monarchs| >= 3 ==> IsSample(monarchSample, monarchs, 3)
      requires 0 <= 3 * |roleCycle| - 1 <= |allHeros| ==> IsSample(heroSample, allHeros, 3 * |roleCycle| - 1)
      requires |queue| >= |roleCycle|
      modifies this
      ensures |monarchs| < 3 || !(0 <= 3 * |old(roleCycle)| - 1 <= |allHeros|) <==> r == Err(SampleError)
      ensures r.Err? ==> roleCycle == old(roleCycle) && curIdx == old(curIdx) && queue == old(queue) && sent == old(sent) && log == old(log)
      ensures r.Ok? ==>
        && sent == old(sent) + StartOffers(VisitOrder(old(roleCycle), old(curIdx)), roomId, monarchSample, heroSample)
        && roleCycle == ApplyPicks(old(roleCycle), old(queue)[..|old(roleCycle)|])
        && queue == old(queue)[|old(roleCycle)|..]
        && log == old(log) + TurnLog(VisitOrder(roleCycle, old(curIdx)))
        && curIdx == old(curIdx) + |roleCycle|
    {
      if |monarchs| < 3 || !(0 <= 3 * |roleCycle| - 1 <= |allHeros|) {
        return Err(SampleError);
      }
      var opening := new GameStartEvent(this, monarchSample, heroSample);
      opening.Trigger();
      var cycle := new GameCycleEvent(this);
      cycle.Trigger();
      r := Ok(());
    }
  }

  /** `GameStartEvent(event_center)`: the monarch candidates and hero pool it drew. */
  class GameStartEvent {
    const center: EventCenter
    const roleEvents: seq<EventList>
    const monarchPool: seq<string>
    const heroPool: seq<string>

    constructor (center: EventCenter, monarchPool: seq<string>, heroPool: seq<string>)
      ensures this.center == center && this.monarchPool == monarchPool && this.heroPool == heroPool
      ensures |roleEvents| == |center.roleCycle| && forall i :: 0 <= i < |roleEvents| ==> roleEvents[i] == roleEvents[0]
    {
      this.center := center;
      this.monarchPool := monarchPool;
      this.heroPool := heroPool;
      var lists := SharedLists(|center.roleCycle|);
      this.roleEvents := lists;
    }

    /** `each(user_role, pos)`: send the seat the heroes of its position. */
    method Each(seat: UserRole, pos: nat)
      modifies center
      ensures center.sent == old(center.sent) + [Offer(seat.userId, center.roomId, pos, Offered(monarchPool, heroPool, pos))]
      ensures center.roleCycle == old(center.roleCycle) && center.curIdx == old(center.curIdx)
      ensures center.queue == old(center.queue) && center.log == old(center.log)
    {
      center.sent := center.sent + [Offer(seat.userId, center.roomId, pos, Offered(monarchPool, heroPool, pos))];
    }

    /** `set_role_hero(user_id, hero)`, with the seat taking the hero. */
    method SetRoleHero(userId: string, hero: string)
      modifies center
      ensures center.roleCycle == SetHero(old(center.roleCycle), userId, hero)
      ensures center.curIdx == old(center.curIdx) && center.queue == old(center.queue)
      ensures center.sent == old(center.sent) && center.log == old(center.log)
    {
      var i := 0;
      while i < |center.roleCycle|
        invariant 0 <= i <= |center.roleCycle|
        invariant forall j :: 0 <= j < i ==> center.roleCycle[j].userId != userId
        invariant center.roleCycle == old(center.roleCycle)
      {
        if center.roleCycle[i].userId == userId {
          assert FirstSeat(center.roleCycle, userId) == i;
          center.roleCycle := center.roleCycle[i := center.roleCycle[i].(heroId := HeroId(hero))];
          return;
        }
        i := i + 1;
      }
    }

    /** `trigger()`: offer every seat, then take one pick per seat from the queue. */
    method Trigger()
      requires |center.queue| >= |center.roleCycle|
      modifies center
      ensures center.sent == old(center.sent) + StartOffers(VisitOrder(old(center.roleCycle), old(center.curIdx)), center.roomId, monarchPool, heroPool)
      ensures center.roleCycle == ApplyPicks(old(center.roleCycle), old(center.queue)[..|old(center.roleCycle)|])
      ensures center.queue == old(center.queue)[|old(center.roleCycle)|..]
      ensures center.curIdx == old(center.curIdx) && center.log == old(center.log)
    {
      center.SettleStart(this);
      var n := |center.roleCycle|;
      ghost var picks := center.queue[..n];
      ghost var start := center.roleCycle;
      var i := 0;
      while i < n
        invariant 0 <= i <= n && |center.queue| == |old(center.queue)| - i
        invariant center.queue == old(center.queue)[i..]
        invariant ApplyPicks(center.roleCycle, picks[i..]) == ApplyPicks(start, picks)
        invariant center.curIdx == old(center.curIdx) && center.log == old(center.log)
        invariant center.sent == old(center.sent) + StartOffers(VisitOrder(old(center.roleCycle), old(center.curIdx)), center.roomId, monarchPool, heroPool)
      {
        var pick := center.queue[0];
        center.queue := center.queue[1..];
        assert picks[i..][0] == pick && picks[i..][1..] == picks[i + 1..];
        SetRoleHero(pick.userId, pick.hero);
        i := i + 1;
      }
    }
  }

  /** `GameCycleEvent(event_center)` */
  class GameCycleEvent {
    const center: EventCenter
    const roleEvents: seq<EventList>

    constructor (center: EventCenter)
      ensures this.center == center
      ensures |roleEvents| == |center.roleCycle| && forall i :: 0 <= i < |roleEvents| ==> roleEvents[i] == roleEvents[0]
    {
      this.center := center;
      var lists := SharedLists(|center.roleCycle|);
      this.roleEvents := lists;
    }

    /** `each(user_role, pos)`: report the turn and advance the turn index; the round event is an empty stub. */
    method Each(seat: UserRole, pos: nat)
      modifies center
      ensures center.log == old(center.log) + [Visit(pos, seat.userId)]
      ensures center.curIdx == old(center.curIdx) + 1
      ensures center.roleCycle == old(center.roleCycle) && center.queue == old(center.queue) && center.sent == old(center.sent)
    {
      center.log := center.log + [Visit(pos, seat.userId)];
      center.curIdx := center.curIdx + 1;
    }

    /** `trigger()`: the loop runs one pass and stops, having no win condition to check. */
    method Trigger()
      modifies center
      ensures center.log == old(center.log) + TurnLog(VisitOrder(old(center.roleCycle), old(center.curIdx)))
      ensures center.curIdx == old(center.curIdx) + |center.roleCycle|
      ensures center.roleCycle == old(center.roleCycle) && center.queue == old(center.queue) && center.sent == old(center.sent)
    {
      center.SettleTurns(this);
    }
  }
}
