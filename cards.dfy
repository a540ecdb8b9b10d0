/**
 * Card identity: the card-type flags and their one-way category equality, the
 * card classes `make` builds from, the collection argument of `Card.load`, the
 * colour key and the card ids it composes from a table, and the suit and text
 * a card id renders to.
 */
module Cards {
  import opened Wrappers
  import opened PyText

  datatype CardType =
    | Base | Stratagem | StratagemNormal | StratagemDelay
    | Equipment | EquipmentArms | EquipmentArmor | EquipmentOffense | EquipmentDefence | EquipmentTreasure

  /** The IntFlag value: a category in the low two bits, a subtype number above them. */
  function TypeValue(t: CardType): int {
    match t
    case Base => 1
    case Stratagem => 2
    case StratagemNormal => 2 + 1 * 4
    case StratagemDelay => 2 + 2 * 4
    case Equipment => 3
    case EquipmentArms => 3 + 1 * 4
    case EquipmentArmor => 3 + 2 * 4
    case EquipmentOffense => 3 + 3 * 4
    case EquipmentDefence => 3 + 4 * 4
    case EquipmentTreasure => 3 + 5 * 4
  }

  /** The category a type belongs to. */
  function Category(t: CardType): CardType {
    match t
    case Base => Base
    case Stratagem | StratagemNormal | StratagemDelay => Stratagem
    case _ => Equipment
  }

  /** The low two bits of every value name its category, and no two types share a value (`@unique`). */
  lemma TypeValues(t: CardType, u: CardType)
    ensures TypeValue(t) % 4 == TypeValue(Category(t))
    ensures TypeValue(t) < 4 <==> Category(t) == t
    ensures TypeValue(t) == TypeValue(u) ==> t == u
  {
  }

  /**
   * `CardType.__eq__(self, other)` against an int or another type's value: a
   * subtype (above 3) compared with a category value (below 4) tests its low two
   * bits; everything else is plain integer equality.
   */
  function Eq(self: CardType, other: int): bool {
    if TypeValue(self) > 3 && other < 4 then TypeValue(self) % 4 == other
    else TypeValue(self) == other
  }

  /** A subtype equals a category exactly when it belongs to it; a type always equals itself. */
  lemma EqCategory(self: CardType, c: CardType)
    requires Category(c) == c
    ensures Eq(self, TypeValue(c)) <==> (self == c || (Category(self) == c && self != Category(self)))
    ensures Eq(self, TypeValue(self))
  {
    TypeValues(self, c);
  }

  /** The equality is one-way: a normal stratagem equals STRATAGEM but STRATAGEM does not equal it. */
  lemma EqAsymmetric()
    ensures Eq(StratagemNormal, TypeValue(Stratagem))
    ensures !Eq(Stratagem, TypeValue(StratagemNormal))
  {
  }

  datatype Card = Card(cardId: string, name: string, cardType: CardType)

  /** The class attributes `make` reads: a fixed name ('' when unset), alternative names, a type. */
  datatype CardClass = CardClass(fixedName: string, names: seq<string>, cardType: Option<CardType>)

  datatype CardError =
    | AssertionError
    | KeyError
    | IndexError
    | ValueError

  /**
   * `cls.make(card_id)`: the class must have a name or some names, and a type;
   * the name is the fixed one when set, else the alternative `random.choice`
   * picks, here the one at index `pick`.
   */
  function Make(cls: CardClass, cardId: string, pick: nat): (r: Result<Card, CardError>)
    requires cls.fixedName == "" && cls.names != [] ==> pick < |cls.names|
    ensures r.Ok? <==> (cls.fixedName != "" || cls.names != []) && cls.cardType.Some?
    ensures r.Ok? ==> r.value.cardId == cardId && Some(r.value.cardType) == cls.cardType
    ensures r.Ok? ==> r.value.name == cls.fixedName || (cls.fixedName == "" && r.value.name in cls.names)
  {
    if cls.fixedName == "" && cls.names == [] then Err(AssertionError)
    else if cls.cardType.None? then Err(AssertionError)
    else Ok(Card(cardId, if cls.fixedName != "" then cls.fixedName else cls.names[pick], cls.cardType.value))
  }

  /** The `collection` argument of `Card.load`. */
  datatype CollectionArg =
    | Named(s: string)          // a str
    | Listed(xs: seq<string>)   // a list, tuple or set (a set in its iteration order)
    | Other                     // anything else

  /** The collections `load` reads: every configured one for 'all', a comma list split, one name, or the given ones. */
  function SelectCollections(arg: CollectionArg, configured: seq<string>): (r: Result<seq<string>, CardError>)
    ensures r.Err? <==> arg.Other?
    ensures arg == Named("all") ==> r == Ok(configured)
    ensures arg.Named? && arg.s != "all" && ',' !in arg.s ==> r == Ok([arg.s])
    ensures arg.Listed? ==> r == Ok(arg.xs)
  {
    match arg
    case Named(s) =>
      if s == "all" then Ok(configured)
      else if ',' in s then Ok(Split(s, ','))
      else Ok([s])
    case Listed(xs) => Ok(xs)
    case Other => Err(KeyError)
  }

  /** Naming collections as one comma-separated string selects exactly those collections. */
  lemma SelectJoined(xs: seq<string>, configured: seq<string>)
    requires xs != [] && Join(xs, ",") != "all"
    requires forall k :: 0 <= k < |xs| ==> ',' !in xs[k]
    ensures SelectCollections(Named(Join(xs, ",")), configured) == Ok(xs)
  {
    JoinSplit(xs, ',');
    var s := Join(xs, ",");
    if ',' !in s {
      SplitSeveral(s, ',');
      assert |Split(s, ',')| == 1;
    }
  }

  /** Last index of `c` in `s`. */
  function LastIndexOf(s: string, c: char): (r: Option<nat>)
    ensures r.Some? ==> r.value < |s| && s[r.value] == c && c !in s[r.value + 1..]
    ensures r.None? ==> c !in s
  {
    if s == [] then None
    else if s[|s| - 1] == c then Some(|s| - 1)
    else
      var r := LastIndexOf(s[..|s| - 1], c);
      assert s == s[..|s| - 1] + [s[|s| - 1]];
      r
  }

  /**
   * `color.rsplit('(', 2)[1]`: with one '(' the text after it, with two or more
   * the text between the last two; no '(' raises IndexError.
   */
  function RSplitSecond(color: string): (r: Result<string, CardError>)
    ensures r.Err? <==> '(' !in color
  {
    match LastIndexOf(color, '(')
    case None => Err(IndexError)
    case Some(j) =>
      match LastIndexOf(color[..j], '(')
      case None => Ok(color[j + 1..])
      case Some(i) => Ok(color[i + 1..j])
  }

  /** The colour key of a table column header: `rsplit('(', 2)[1].split(')', 2)[0]`, which must be one character. */
  function ColorKey(color: string): (r: Result<string, CardError>)
    ensures r.Ok? ==> |r.value| == 1 && r.value[0] != '('  && r.value[0] != ')'
  {
    match RSplitSecond(color)
    case Err(e) => Err(e)
    case Ok(piece) =>
      var key := piece[..IndexOf(piece, ')')];
      if |key| != 1 then Err(AssertionError)
      else
        assert key[0] == piece[0];
        Ok(key)
  }

  /** A header written `title(k)` with no bracket in the title has key `k`. */
  lemma ColorKeyOfHeader(title: string, k: char)
    requires '(' !in title && k != '(' && k != ')'
    ensures ColorKey(title + "(" + [k] + ")") == Ok([k])
  {
    var color := title + "(" + [k] + ")";
    var j := |title|;
    assert color[j] == '(' && color[j + 1..] == [k, ')'];
    assert '(' !in color[j + 1..];
    assert LastIndexOf(color, '(') == Some(j) by {
      assert color == (title + "(" + [k]) + [')'];
      assert (title + "(" + [k])[..|title| + 1] == title + "(";
      assert LastIndexOf(color, '(') == LastIndexOf(title + "(" + [k], '(');
      assert LastIndexOf(title + "(" + [k], '(') == LastIndexOf(title + "(", '(');
    }
    assert color[..j] == title;
    assert LastIndexOf(title, '(') == None;
    assert RSplitSecond(color) == Ok([k, ')']);
    assert IndexOf([k, ')'], ')') == 1;
    assert [k, ')'][..1] == [k];
  }

  /**
   * The (card id, sub-card name) pairs one table entry `n: name` yields: each
   * non-blank piece i of a '|'-separated name gets the key repeated i+1 times
   * and then `n`; a plain non-blank name gets key + `n`.
   */
  function EntryIds(key: string, n: string, name: string): seq<(string, string)> {
    if '|' in name then PieceIds(key, n, Split(name, '|'), 0)
    else if Strip(name) != "" then [(key + n, Strip(name))]
    else []
  }

  function PieceIds(key: string, n: string, pieces: seq<string>, i: nat): (r: seq<(string, string)>)
    ensures |r| <= |pieces|
    ensures forall t :: 0 <= t < |r| ==> r[t].1 != ""
    decreases |pieces|
  {
    if pieces == [] then []
    else
      var rest := PieceIds(key, n, pieces[1..], i + 1);
      if Strip(pieces[0]) != "" then [(Repeat(key, i + 1) + n, Strip(pieces[0]))] + rest else rest
  }

  /** No piece of the name is blank. */
  predicate AllNamed(pieces: seq<string>) {
    forall t :: 0 <= t < |pieces| ==> Strip(pieces[t]) != ""
  }

  lemma AllNamedTail(pieces: seq<string>)
    requires AllNamed(pieces) && pieces != []
    ensures AllNamed(pieces[1..]) && Strip(pieces[0]) != ""
    ensures forall t :: 0 < t < |pieces| ==> pieces[1..][t - 1] == pieces[t]
  {
    assert forall t :: 0 <= t < |pieces| - 1 ==> pieces[1..][t] == pieces[t + 1];
  }

  /** When no piece is blank, piece t of a '|' entry gets the key repeated i+t+1 times, then the number. */
  lemma PieceIdsAllNamed(key: string, n: string, pieces: seq<string>, i: nat)
    requires forall t :: 0 <= t < |pieces| ==> Strip(pieces[t]) != ""
    ensures |PieceIds(key, n, pieces, i)| == |pieces|
    ensures forall t :: 0 <= t < |pieces| ==>
      PieceIds(key, n, pieces, i)[t] == (Repeat(key, i + t + 1) + n, Strip(pieces[t]))
  {
    PieceIdsLength(key, n, pieces, i);
    forall t | 0 <= t < |pieces|
      ensures PieceIds(key, n, pieces, i)[t] == (Repeat(key, i + t + 1) + n, Strip(pieces[t]))
    {
      PieceIdAt(key, n, pieces, i, t);
    }
  }

  lemma {:induction false} PieceIdsLength(key: string, n: string, pieces: seq<string>, i: nat)
    requires AllNamed(pieces)
    ensures |PieceIds(key, n, pieces, i)| == |pieces|
    decreases |pieces|
  {
    if pieces != [] {
      AllNamedTail(pieces);
      PieceIdsLength(key, n, pieces[1..], i + 1);
    }
  }

  lemma {:induction false} PieceIdAt(key: string, n: string, pieces: seq<string>, i: nat, t: nat)
    requires AllNamed(pieces) && t < |pieces|
    ensures |PieceIds(key, n, pieces, i)| == |pieces|
    ensures PieceIds(key, n, pieces, i)[t] == (Repeat(key, i + t + 1) + n, Strip(pieces[t]))
    decreases t
  {
    AllNamedTail(pieces);
    PieceIdsLength(key, n, pieces, i);
    if t == 0 {
      PieceIdsCons(key, n, pieces, i);
    } else {
      var tail := pieces[1..];
      PieceIdAt(key, n, tail, i + 1, t - 1);
      PieceIdsLater(key, n, pieces, i, t);
      assert i + 1 + (t - 1) + 1 == i + t + 1;
    }
  }

  /** A named first piece gives the first identifier. */
  lemma PieceIdsCons(key: string, n: string, pieces: seq<string>, i: nat)
    requires pieces != [] && Strip(pieces[0]) != ""
    ensures PieceIds(key, n, pieces, i) == [(Repeat(key, i + 1) + n, Strip(pieces[0]))] + PieceIds(key, n, pieces[1..], i + 1)
  {
  }

  /** Behind a named first piece, identifier t is identifier t-1 of the rest. */
  lemma PieceIdsLater(key: string, n: string, pieces: seq<string>, i: nat, t: nat)
    requires 0 < t < |pieces| && Strip(pieces[0]) != ""
    requires t - 1 < |PieceIds(key, n, pieces[1..], i + 1)|
    ensures t < |PieceIds(key, n, pieces, i)|
    ensures PieceIds(key, n, pieces, i)[t] == PieceIds(key, n, pieces[1..], i + 1)[t - 1]
  {
    PieceIdsCons(key, n, pieces, i);
  }

  lemma PieceIdsStep(key: string, n: string, pieces: seq<string>, i: nat)
    requires i < |pieces|
    ensures PieceIds(key, n, pieces[i..], i)
      == (if Strip(pieces[i]) != "" then [(Repeat(key, i + 1) + n, Strip(pieces[i]))] else [])
         + PieceIds(key, n, pieces[i + 1..], i + 1)
  {
    assert pieces[i..][1..] == pieces[i + 1..];
  }

  /** With a one-character key, distinct pieces of one entry get ids of distinct lengths, so distinct ids. */
  lemma PieceIdLength(key: string, n: string, k: int)
    requires |key| == 1 && k >= 1
    ensures |Repeat(key, k) + n| == k + |n|
  {
    RepeatLength(key, k);
  }

  /**
   * The id construction of `Card.load` for one table column: its colour key,
   * then the pairs of every entry in table order.
   */
  method ColumnIds(color: string, entries: seq<(string, string)>) returns (r: Result<seq<(string, string)>, CardError>)
    ensures ColorKey(color).Err? ==> r == Err(ColorKey(color).error)
    ensures ColorKey(color).Ok? ==> r == Ok(ColumnSpec(ColorKey(color).value, entries))
  {
    var k := ColorKey(color);
    if k.Err? {
      return Err(k.error);
    }
    var key := k.value;
    var cards: seq<(string, string)> := [];
    var e := 0;
    while e < |entries|
      invariant 0 <= e <= |entries|
      invariant cards == ColumnSpec(key, entries[..e])
    {
      var (n, name) := entries[e];
      if '|' in name {
        var ids := PieceLoop(key, n, Split(name, '|'));
        cards := cards + ids;
      } else {
        var sn := Strip(name);
        if sn != "" {
          cards := cards + [(key + n, sn)];
        }
      }
      assert entries[..e + 1] == entries[..e] + [entries[e]];
      ColumnSpecAppend(key, entries[..e], entries[e]);
      e := e + 1;
    }
    assert entries[..e] == entries;
    r := Ok(cards);
  }

  /** The inner loop of the id construction over the pieces of a '|' entry. */
  method PieceLoop(key: string, n: string, pieces: seq<string>) returns (ids: seq<(string, string)>)
    ensures ids == PieceIds(key, n, pieces, 0)
  {
    ids := [];
    var i := 0;
    while i < |pieces|
      invariant 0 <= i <= |pieces|
      invariant ids + PieceIds(key, n, pieces[i..], i) == PieceIds(key, n, pieces, 0)
    {
      PieceIdsStep(key, n, pieces, i);
      var sn := Strip(pieces[i]);
      if sn != "" {
        ids := ids + [(Repeat(key, i + 1) + n, sn)];
      }
      i := i + 1;
    }
    assert pieces[i..] == [];
  }

  /** The pairs a column's entries yield, in order. */
  function ColumnSpec(key: string, entries: seq<(string, string)>): seq<(string, string)> {
    if entries == [] then []
    else ColumnSpec(key, entries[..|entries| - 1]) + EntryIds(key, entries[|entries| - 1].0, entries[|entries| - 1].1)
  }

  lemma ColumnSpecAppend(key: string, entries: seq<(string, string)>, e: (string, string))
    ensures ColumnSpec(key, entries + [e]) == ColumnSpec(key, entries) + EntryIds(key, e.0, e.1)
  {
    assert (entries + [e])[..|entries|] == entries;
  }

  /** A column whose entries are plain names gets one id key + number per non-blank name. */
  lemma {:induction false} PlainColumn(key: string, entries: seq<(string, string)>)
    requires forall t :: 0 <= t < |entries| ==> '|' !in entries[t].1 && Strip(entries[t].1) != ""
    ensures |ColumnSpec(key, entries)| == |entries|
    ensures forall t :: 0 <= t < |entries| ==> ColumnSpec(key, entries)[t] == (key + entries[t].0, Strip(entries[t].1))
    decreases |entries|
  {
    if entries != [] {
      var init := entries[..|entries| - 1];
      PlainColumn(key, init);
      var last := entries[|entries| - 1];
      assert EntryIds(key, last.0, last.1) == [(key + last.0, Strip(last.1))];
      forall t | 0 <= t < |entries|
        ensures ColumnSpec(key, entries)[t] == (key + entries[t].0, Strip(entries[t].1))
      {
        if t < |init| {
          assert entries[t] == init[t];
        }
      }
    }
  }

  const SuitSeq: seq<string> := ["黑桃", "梅花", "红桃", "方块"]

  /** The character at index k of `string.ascii_letters`: a-z, then A-Z. */
  function AsciiLetter(k: nat): char
    requires k < 52
  {
    if k < 26 then ('a' as int + k) as char else ('A' as int + (k - 26)) as char
  }

  /** `string.ascii_letters.index(c)` */
  function LetterIndex(c: char): (r: Option<nat>)
    ensures r.Some? ==> r.value < 52 && AsciiLetter(r.value) == c
    ensures r.None? ==> forall k :: 0 <= k < 52 ==> AsciiLetter(k) != c
    ensures r.Some? <==> IsLetter(c)
  {
    if 'a' <= c <= 'z' then Some(c as int - 'a' as int)
    else if 'A' <= c <= 'Z' then Some(26 + (c as int - 'A' as int))
    else None
  }

  predicate IsLetter(c: char) {
    'a' <= c <= 'z' || 'A' <= c <= 'Z'
  }

  /** `suit_color`: the suit of the id's first letter, by its ascii_letters index mod 26 mod 4. */
  function SuitColor(cardId: string): (r: Result<string, CardError>)
    ensures r.Ok? ==> r.value in SuitSeq
    ensures cardId == [] ==> r == Err(IndexError)
    ensures cardId != [] ==> (r.Ok? <==> IsLetter(cardId[0])) && (r.Err? ==> r.error == ValueError)
  {
    if cardId == [] then Err(IndexError)
    else match LetterIndex(cardId[0])
      case None => Err(ValueError)
      case Some(idx) => Ok(SuitSeq[idx % 26 % 4])
  }

  /** The suit depends on the first character only, a letter and its upper case share it, and a non-letter fails. */
  lemma SuitOfFirstLetter(c: char, rest: string, rest2: string)
    ensures SuitColor([c] + rest) == SuitColor([c] + rest2)
    ensures 'a' <= c <= 'z' ==> SuitColor([c] + rest) == SuitColor([(c as int - 32) as char])
    ensures !IsLetter(c) ==> SuitColor([c] + rest) == Err(ValueError)
  {
  }

  /**
   * `str(card)` as written: '[' + suit + card_id[1] + ' ' + name + ']'. The
   * f-string computes `suit_color` first, so its errors come before the
   * IndexError of `card_id[1]`.
   */
  function Render(c: Card): (r: Result<string, CardError>)
    ensures c.cardId == [] ==> r == Err(IndexError)
    ensures c.cardId != [] && !IsLetter(c.cardId[0]) ==> r == Err(ValueError)
    ensures |c.cardId| == 1 && IsLetter(c.cardId[0]) ==> r == Err(IndexError)
    ensures r.Ok? <==> |c.cardId| >= 2 && IsLetter(c.cardId[0])
  {
    match SuitColor(c.cardId)
    case Err(e) => Err(e)
    case Ok(suit) => if |c.cardId| < 2 then Err(IndexError) else Ok("[" + suit + [c.cardId[1]] + " " + c.name + "]")
  }

  /** The rendered text gives back the suit, the id's second character and the name. */
  lemma RenderParts(c: Card, suit: string)
    requires |c.cardId| >= 2 && SuitColor(c.cardId) == Ok(suit)
    ensures var r := Render(c).value;
      && Render(c).Ok?
      && r[0] == '[' && r[|r| - 1] == ']'
      && r[1..1 + |suit|] == suit
      && r[1 + |suit|] == c.cardId[1]
      && r[2 + |suit|] == ' '
      && r[3 + |suit|..|r| - 1] == c.name
  {
  }

  /** The second piece of a '|' entry renders its repeated key, not its number: the id `hh3` shows `h`. */
  lemma RenderShowsKeyForSecondPiece(name: string)
    ensures Render(Card(Repeat("h", 2) + "3", name, Base)) == Ok("[方块h " + name + "]")
  {
    var id := Repeat("h", 2) + "3";
    assert Repeat("h", 2) == "hh";
    assert id == "hh3" && id[1] == 'h';
    assert LetterIndex('h') == Some(7);
    assert SuitColor(id) == Ok(SuitSeq[3]);
    assert SuitSeq[3] == "方块";
    assert Render(Card(id, name, Base)) == Ok("[" + "方块" + ['h'] + " " + name + "]");
    assert "[" + "方块" + ['h'] + " " == "[方块h ";
    assert "[" + "方块" + ['h'] + " " + name + "]" == "[方块h " + name + "]";
  }

  /** The number part of an id: what follows the leading run of its colour key. */
  function IdNumber(cardId: string): (n: string)
    requires cardId != []
    ensures |n| < |cardId| && n == cardId[|cardId| - |n|..]
  {
    KeyRunShape(cardId, cardId[0]);
    cardId[KeyRun(cardId, cardId[0])..]
  }

  function KeyRun(s: string, k: char): (i: nat)
    ensures i <= |s| && forall j :: 0 <= j < i ==> s[j] == k
    ensures i < |s| ==> s[i] != k
  {
    if s == [] || s[0] != k then 0 else 1 + KeyRun(s[1..], k)
  }

  lemma KeyRunShape(s: string, k: char)
    requires s != [] && s[0] == k
    ensures KeyRun(s, k) >= 1
  {
  }

  /** `str(card)` showing the whole number of the id after its key run. */
  function RenderNumber(c: Card): (r: Result<string, CardError>)
    ensures c.cardId == [] ==> r == Err(IndexError)
    ensures c.cardId != [] && !IsLetter(c.cardId[0]) ==> r == Err(ValueError)
    ensures r.Ok? <==> c.cardId != [] && IsLetter(c.cardId[0])
  {
    if c.cardId == [] then Err(IndexError)
    else match SuitColor(c.cardId)
      case Err(e) => Err(e)
      case Ok(suit) => Ok("[" + suit + IdNumber(c.cardId) + " " + c.name + "]")
  }

  /** Every piece of an entry renders the entry's number, however often the key was repeated. */
  lemma RenderNumberOfPiece(key: char, k: nat, n: string, name: string, t: CardType)
    requires k >= 1 && (n == [] || n[0] != key)
    requires 'a' <= key <= 'z'
    ensures RenderNumber(Card(Repeat([key], k) + n, name, t)).Ok?
    ensures RenderNumber(Card(Repeat([key], k) + n, name, t)).value
      == "[" + SuitColor([key]).value + n + " " + name + "]"
  {
    var id := Repeat([key], k) + n;
    RepeatLength([key], k);
    RepeatAll(key, k);
    assert id[0] == key;
    KeyRunOfRepeat(id, key, k, n);
    SuitOfFirstLetter(key, id[1..], []);
    assert id == [key] + id[1..];
  }

  lemma {:induction false} RepeatAll(key: char, k: nat)
    ensures forall j :: 0 <= j < |Repeat([key], k)| ==> Repeat([key], k)[j] == key
    ensures |Repeat([key], k)| == k
  {
    RepeatLength([key], k);
    if k > 0 {
      RepeatAll(key, k - 1);
      assert Repeat([key], k) == [key] + Repeat([key], k - 1);
    }
  }

  lemma {:induction false} KeyRunOfRepeat(id: string, key: char, k: nat, n: string)
    requires id == Repeat([key], k) + n && (n == [] || n[0] != key)
    ensures KeyRun(id, key) == k && id[k..] == n
    decreases k
  {
    RepeatAll(key, k);
    if k > 0 {
      assert Repeat([key], k) == [key] + Repeat([key], k - 1);
      assert id[1..] == Repeat([key], k - 1) + n;
      KeyRunOfRepeat(id[1..], key, k - 1, n);
    } else {
      assert id == n;
    }
  }
}
