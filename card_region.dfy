/**
 * The card heap of a game: a face-down pile whose top is the end of the list
 * and a discard pile. Drawing pops from the top, reshuffling puts the shuffled
 * discard pile beneath the face-down cards, and the seat record of a player.
 */
module CardRegion {
  import opened Wrappers
  import opened Cards
  import opened Roles
  import opened HeroRecord

  datatype HeapError =
    | CardHeapEmpty  // fewer cards in both piles than requested
    | TypeError      // `tuple + list`

  /** `s` back to front. */
  function Reverse<T>(s: seq<T>): (r: seq<T>)
    ensures |r| == |s|
  {
    if s == [] then [] else [s[|s| - 1]] + Reverse(s[..|s| - 1])
  }

  lemma {:induction false} ReverseIndex<T>(s: seq<T>)
    ensures forall k :: 0 <= k < |s| ==> Reverse(s)[k] == s[|s| - 1 - k]
  {
    if s != [] {
      ReverseIndex(s[..|s| - 1]);
    }
  }

  lemma {:induction false} ReverseMultiset<T>(s: seq<T>)
    ensures multiset(Reverse(s)) == multiset(s)
  {
    if s != [] {
      ReverseMultiset(s[..|s| - 1]);
      assert s == s[..|s| - 1] + [s[|s| - 1]];
    }
  }

  /** Putting one more card in front of a run puts it at the end of the reversed run. */
  lemma ReverseCons<T>(x: T, u: seq<T>)
    ensures Reverse([x] + u) == Reverse(u) + [x]
  {
    ReverseIndex([x] + u);
    ReverseIndex(u);
  }

  /** The face-down pile after `shuffle` given the order the discard pile was shuffled into. */
  function Reshuffled(un: seq<Card>, shuffledDiscard: seq<Card>): seq<Card> {
    shuffledDiscard + un
  }

  /** The outcome of a draw: the cards drawn (top first) or the error, and both piles afterwards. */
  datatype Drawing = Drawing(drawn: Result<seq<Card>, HeapError>, un: seq<Card>, us: seq<Card>)

  function Count(n: int): nat {
    if n < 0 then 0 else n
  }

  /** The face-down pile the cards are drawn from: reshuffled first when it holds fewer than n. */
  function PileFor(un: seq<Card>, perm: seq<Card>, n: int): seq<Card> {
    if |un| < n then Reshuffled(un, perm) else un
  }

  /**
   * `pop(n)` on piles `un` (face-down) and `us` (discard); `perm` is the order
   * `shuffle` gives the discard pile if the face-down pile runs short.
   */
  function Draw(un: seq<Card>, us: seq<Card>, n: int, perm: seq<Card>): (d: Drawing)
    requires |perm| == |us|
    ensures d.drawn.Err? <==> |un| + |us| < n
    ensures d.drawn.Err? ==> d.un == un && d.us == us
    ensures d.drawn.Ok? ==> |d.drawn.value| == Count(n) && |d.un| + |d.us| == |un| + |us| - Count(n)
  {
    if |un| + |us| < n then Drawing(Err(CardHeapEmpty), un, us)
    else
      var pile := PileFor(un, perm, n);
      var k := Count(n);
      Drawing(Ok(Reverse(pile[|pile| - k..])), pile[..|pile| - k], if |un| < n then [] else us)
  }

  /** Too few cards in both piles: the draw fails before any card moves. */
  lemma DrawShort(un: seq<Card>, us: seq<Card>, n: int, perm: seq<Card>)
    requires |perm| == |us| && |un| + |us| < n
    ensures Draw(un, us, n, perm) == Drawing(Err(CardHeapEmpty), un, us)
  {
  }

  /** Enough face-down cards: the last n are drawn top first and the discard pile is untouched. */
  lemma DrawFromPile(un: seq<Card>, us: seq<Card>, n: nat, perm: seq<Card>)
    requires |perm| == |us| && n <= |un|
    ensures Draw(un, us, n, perm).drawn == Ok(Reverse(un[|un| - n..]))
    ensures Draw(un, us, n, perm).un == un[..|un| - n]
    ensures Draw(un, us, n, perm).us == us
    ensures Draw(un, us, n, perm).un + Reverse(Draw(un, us, n, perm).drawn.value) == un
  {
    var r := Reverse(un[|un| - n..]);
    ReverseIndex(un[|un| - n..]);
    ReverseIndex(r);
    assert Reverse(r) == un[|un| - n..] by {
      assert forall k :: 0 <= k < n ==> Reverse(r)[k] == un[|un| - n..][k];
    }
    assert un[..|un| - n] + un[|un| - n..] == un;
  }

  /**
   * Too few face-down cards: the discard pile is shuffled beneath them, so all
   * the old face-down cards are drawn first, top first, before any reshuffled
   * card; the discard pile ends empty.
   */
  lemma DrawAfterReshuffle(un: seq<Card>, us: seq<Card>, n: nat, perm: seq<Card>)
    requires |perm| == |us| && |un| < n <= |un| + |us|
    ensures Draw(un, us, n, perm).drawn.Ok?
    ensures |Draw(un, us, n, perm).drawn.value| == n
    ensures Draw(un, us, n, perm).drawn.value[..|un|] == Reverse(un)
    ensures Draw(un, us, n, perm).us == []
    ensures Draw(un, us, n, perm).un == perm[..|perm| - (n - |un|)]
  {
    var pile := perm + un;
    assert PileFor(un, perm, n) == pile;
    ReversedTopStartsWith(perm, un, n);
    assert pile[..|pile| - n] == perm[..|perm| - (n - |un|)];
  }

  /** Taking the top n >= |b| cards of `a + b` top first yields `b` reversed before any card of `a`. */
  lemma {:induction false} ReversedTopStartsWith<T>(a: seq<T>, b: seq<T>, n: nat)
    requires |b| <= n <= |a| + |b|
    ensures Reverse((a + b)[|a| + |b| - n..])[..|b|] == Reverse(b)
  {
    var t := (a + b)[|a| + |b| - n..];
    ReverseIndex(t);
    ReverseIndex(b);
    forall k | 0 <= k < |b| ensures Reverse(t)[k] == Reverse(b)[k] {
      assert t[n - 1 - k] == (a + b)[|a| + |b| - 1 - k];
      assert (a + b)[|a| + |b| - 1 - k] == b[|b| - 1 - k];
    }
    assert Reverse(t)[..|b|] == Reverse(b);
  }

  /** No draw creates or loses a card: drawn cards plus both piles keep the heap's multiset. */
  lemma DrawConserves(un: seq<Card>, us: seq<Card>, n: int, perm: seq<Card>)
    requires |perm| == |us| && multiset(perm) == multiset(us)
    ensures Draw(un, us, n, perm).drawn.Ok? ==>
      multiset(Draw(un, us, n, perm).drawn.value) + multiset(Draw(un, us, n, perm).un) + multiset(Draw(un, us, n, perm).us)
        == multiset(un) + multiset(us)
    ensures Draw(un, us, n, perm).drawn.Err? ==>
      Draw(un, us, n, perm).un == un && Draw(un, us, n, perm).us == us
  {
    if |un| + |us| >= n {
      var pile := PileFor(un, perm, n);
      var k := Count(n);
      var d := Draw(un, us, n, perm);
      assert d == Drawing(Ok(Reverse(pile[|pile| - k..])), pile[..|pile| - k], if |un| < n then [] else us);
      TopSplit(pile, k);
      PileConserves(un, us, n, perm);
    }
  }

  /** The pile drawn from and the discard pile left beside it hold the heap's cards. */
  lemma PileConserves(un: seq<Card>, us: seq<Card>, n: int, perm: seq<Card>)
    requires multiset(perm) == multiset(us)
    ensures multiset(PileFor(un, perm, n)) + multiset(if |un| < n then [] else us) == multiset(un) + multiset(us)
  {
    if |un| < n {
      assert multiset(perm + un) == multiset(perm) + multiset(un);
    }
  }

  lemma TopSplit(pile: seq<Card>, k: nat)
    requires k <= |pile|
    ensures multiset(Reverse(pile[|pile| - k..])) + multiset(pile[..|pile| - k]) == multiset(pile)
  {
    ReverseMultiset(pile[|pile| - k..]);
    assert pile == pile[..|pile| - k] + pile[|pile| - k..];
  }

  /** `push_down` as written: `cards + self.un_cards` adds a tuple to a list, which Python refuses. */
  function PushDownAsWritten(un: seq<Card>, cards: seq<Card>): (r: Result<seq<Card>, HeapError>)
    ensures r.Err? && r.error == TypeError
  {
    Err(TypeError)
  }

  /** Every call to `push_down` as written raises, whatever cards it is given. */
  lemma PushDownAlwaysFails(un: seq<Card>, cards: seq<Card>)
    ensures PushDownAsWritten(un, cards) == Err(TypeError)
  {
  }

  /** The intended `push_down`: the cards go beneath the face-down pile, in argument order. */
  function PushedDown(un: seq<Card>, cards: seq<Card>): (r: seq<Card>)
    ensures |r| == |cards| + |un| && r[..|cards|] == cards && r[|cards|..] == un
  {
    cards + un
  }

  /** Cards pushed down are drawn only after every card that was already face down. */
  lemma PushDownDrawnLast(un: seq<Card>, cards: seq<Card>, n: nat, perm: seq<Card>)
    requires n <= |un| && perm == []
    ensures Draw(PushedDown(un, cards), [], n, perm).drawn == Draw(un, [], n, perm).drawn
  {
    var p := PushedDown(un, cards);
    assert p[|p| - n..] == un[|un| - n..];
  }

  /** The two piles. The heap's cards are loaded and shuffled by the caller. */
  class CardHeap {
    const coll: string
    var unCards: seq<Card>
    var usCards: seq<Card>

    /** `CardHeap(collection)` with the loaded cards already in the order `random.shuffle` left them. */
    constructor (coll: string, shuffledCards: seq<Card>)
      ensures this.coll == coll && unCards == shuffledCards && usCards == []
    {
      this.coll := coll;
      unCards := shuffledCards;
      usCards := [];
    }

    /** `shuffle()`: the discard pile, in the order `random.shuffle` gives it, goes beneath the face-down cards. */
    method Shuffle(perm: seq<Card>)
      requires multiset(perm) == multiset(usCards)
      modifies this
      ensures unCards == Reshuffled(old(unCards), perm) && usCards == []
      ensures multiset(unCards) == old(multiset(unCards) + multiset(usCards))
    {
      var shuffled := perm;
      shuffled := shuffled + unCards;
      unCards := shuffled;
      usCards := [];
    }

    /** `pop(n)`, drained at once: the check happens before any card is removed. */
    method Pop(n: int, perm: seq<Card>) returns (r: Result<seq<Card>, HeapError>)
      requires multiset(perm) == multiset(usCards)
      modifies this
      ensures |perm| == old(|usCards|)
      ensures Draw(old(unCards), old(usCards), n, perm) == Drawing(r, unCards, usCards)
    {
      assert |perm| == |multiset(perm)| == |usCards|;
      var length := |unCards|;
      if length + |usCards| < n {
        return Err(CardHeapEmpty);
      }
      if length < n {
        Shuffle(perm);
      }
      var drawn, rest := DrawTop(unCards, Count(n));
      unCards := rest;
      r := Ok(drawn);
    }

    /** The loop of `pop`: `k` times, the top card leaves the pile and is handed out. */
    static method DrawTop(pile: seq<Card>, k: nat) returns (drawn: seq<Card>, rest: seq<Card>)
      requires k <= |pile|
      ensures drawn == Reverse(pile[|pile| - k..]) && rest == pile[..|pile| - k]
    {
      drawn := [];
      rest := pile;
      var i := 0;
      while i < k
        invariant 0 <= i <= k
        invariant rest == pile[..|pile| - i]
        invariant drawn == Reverse(pile[|pile| - i..])
      {
        ReverseCons(pile[|pile| - 1 - i], pile[|pile| - i..]);
        assert pile[|pile| - (i + 1)..] == [pile[|pile| - 1 - i]] + pile[|pile| - i..];
        drawn := drawn + [rest[|rest| - 1]];
        rest := rest[..|rest| - 1];
        i := i + 1;
      }
    }

    /** `push_up(*cards)`: the cards go on top in argument order, so the last one is drawn next. */
    method PushUp(cards: seq<Card>)
      modifies this
      ensures unCards == old(unCards) + cards && usCards == old(usCards)
    {
      unCards := unCards + cards;
    }

    /** `push_down(*cards)` as intended: the cards go beneath the face-down pile in argument order. */
    method PushDown(cards: seq<Card>)
      modifies this
      ensures unCards == PushedDown(old(unCards), cards) && usCards == old(usCards)
    {
      unCards := cards + unCards;
    }

    /** `discard(*cards)`: the cards go on the discard pile in argument order. */
    method Discard(cards: seq<Card>)
      modifies this
      ensures usCards == old(usCards) + cards && unCards == old(unCards)
    {
      usCards := usCards + cards;
    }
  }

  /**
   * A reshuffle scenario: four cards face down, two drawn and discarded, then
   * three drawn: the last two face-down cards come out first, then a card of
   * the reshuffled discard pile (shuffled here into [c, d]), and its other card
   * is left face down.
   */
  lemma ReshuffleScenario(a: Card, b: Card, c: Card, d: Card)
    ensures Draw([a, b, c, d], [], 2, []) == Drawing(Ok([d, c]), [a, b], [])
    ensures Draw([a, b], [] + [d, c], 3, [c, d]) == Drawing(Ok([b, a, d]), [c], [])
  {
    assert [a, b, c, d][2..] == [c, d] && [a, b, c, d][..2] == [a, b];
    ReverseIndex([c, d]);
    assert Reverse([c, d]) == [d, c];
    ghost var pile := [c, d] + [a, b];
    assert PileFor([a, b], [c, d], 3) == pile;
    assert pile[1..] == [d, a, b] && pile[..1] == [c];
    ReverseIndex([d, a, b]);
    assert Reverse([d, a, b]) == [b, a, d];
  }

  /** What a seat holds that the model reads: who sits there, their role and their hero. */
  datatype HeroRef =
    | HeroId(id: string)      // a hero id as the dataclass declares it ('' by default)
    | RoomObject(roomId: string) // the Room object the seat-completion code passes here

  /** `UserRole`: the dataclass of one seat; the card regions and tag dictionary are not modelled. */
  datatype UserRole = UserRole(userId: string, role: Role, heroId: HeroRef, hp: int, hpMax: int, camp: Camp, gender: int)

  /** `UserRole(user_id, role, hero_id)` with the remaining fields at their defaults. */
  function NewUserRole(userId: string, role: Role, heroId: HeroRef): (u: UserRole)
    ensures u.userId == userId && u.role == role && u.heroId == heroId
    ensures u.hp == 0 && u.hpMax == 0 && u.camp == Unknown && u.gender == 0
  {
    UserRole(userId, role, heroId, 0, 0, Unknown, 0)
  }
}
