# sgs_helper core, modelled in Dafny

This project models the core of sgs_helper, a chat-bot helper for the hidden-role card game "sgs". It covers these parts:

- **Roles and rooms.** The role sequence of a room (`sgs/room.py`, `biz/room.py`) and the pure state machine both room classes share (module `RoomSpec`): the role queue, the per-seat role cache and the check that all seats are filled. The two room classes themselves are `SgsRoom` and `BizRoom`, over a Redis-like key-value store (`Store`).
- **Cards.** Cards and their ids (`Cards`), and the card heap with a player's hand (`CardRegion`).
- **Turns.** The turn engine: `Event`, `EventCenter` and the game-start and cycle events (`Events`).
- **Users.** A user's record ledger and the user registry (`Users`).
- **Commands.** The command router (`Router`).
- **Markup.** The Markdown/HTML structure helpers of the crawler (`Crawler`, and `CrawlerTable` for the table layout).
- **Hero data.** The hero-document walkers of both hero managers (`HeroOutline`), the hero records (`HeroRecord` for `sgs/heros/hero.py`, `LegacyHero` for `sgs/hero.py`), and the crawl-page alias parser with its shared `Anchor` (`AliasParser`).
- **Descriptor.** The memoising `classproperty` descriptor (`ClassProperty`).

Helpers shared across modules live in two files. `Wrappers` holds Option and Result. `PyText` holds what Python's string methods do: `split`, `join`, `strip`, `in`, `removeprefix` and `str(int)`.

Each object the source updates in place is a Dafny `class` with the same fields. Each of its methods is proved to leave the object in the state a pure transition function gives for the old state. The properties are lemmas about those functions. Python exceptions are values: a `Result` or an error field of the outcome. A method never gets a precondition to rule an exception out.

The room's role sequence from `gen_role_seq` (`sgs/room.py:37-48`) is not always at most n long. For n >= 1 it has length 1 + n//2 + max(t, 0) + max((n-1)//2 - t, 0), where t is the traitor count. That is longer than n whenever t > (n-1)//2. The model follows the code: `Roles.GenRoleSeqLength` proves that the length is at least n, and exactly n iff 0 <= t <= (n-1)//2.

## Model

| member | source | states |
|---|---|---|
| Roles.FromValue | biz/room.py:7-11 | decoding a stored string yields a role only when that role's value is exactly that string |
| Roles.ValueRoundTrip | biz/room.py:7-11 | every role decodes back from its own stored value |
| Roles.CopiesCount | sgs/room.py:43 | `[r] * k` has max(k, 0) elements, all of them r |
| Roles.GenRoleSeq | sgs/room.py:37-48 | the generated sequence opens with the single Lord, and no later role is a Lord |
| Roles.GenRoleSeqComposition | sgs/room.py:37-48 | the Lord comes first and exactly once, then n//2 Rebels, max(traitor_cnt, 0) Traitors and max((n-1)//2 - traitor_cnt, 0) Ministers, and nothing else |
| Roles.GenRoleSeqLength | sgs/room.py:42-48 | for n >= 1 the sequence is at least n long, and exactly n long iff 0 <= traitor_cnt <= (n-1)//2 |
| Roles.FiveSeatRoles | sgs/room.py:37-48 | five seats with one Traitor deal Lord, two Rebels, a Traitor and a Minister |
| Roles.DefaultSeatRoles | sgs/room.py:37-48 | the default n = 0 still yields a Lord and one Traitor |
| Store.Store.constructor | sgs/room.py:13 | a new store holds no lists and no hashes |
| Store.Store.Exists | sgs/room.py:25 | EXISTS answers whether the list key is present |
| Store.Store.Delete | sgs/room.py:30 | DEL removes the list key and nothing else |
| Store.Store.LLen | sgs/room.py:113 | LLEN is the stored list's length, 0 for a missing key |
| Store.Store.RPop | sgs/room.py:59-60 | RPOP removes and returns the last element; a missing or empty list gives nothing and stays as it was |
| Store.Store.RPush | sgs/room.py:127-128 | RPUSH appends the values in order and answers the new length; with no values it is an error and nothing changes |
| Store.Store.HExists | sgs/room.py:55 | HEXISTS answers whether the field is in the hash |
| Store.Store.HGet | sgs/room.py:56 | HGET gives the field's value, or nothing when the field is absent |
| Store.Store.HSet | sgs/room.py:65 | HSET writes one field, answers 1 for a new field and 0 for an overwrite, and leaves every list alone |
| RoomSpec.Values | sgs/room.py:124-131 | the stored list of a role sequence holds each role's value at the same position |
| RoomSpec.Decode | sgs/room.py:57-61 | a decoded stored list has as many roles as values |
| RoomSpec.DecodeValues | sgs/room.py:58-64 | decoding the values of a role sequence gives that sequence back |
| RoomSpec.DecodeDropLast | sgs/room.py:59-61 | removing the last stored value removes exactly the last decoded role, and that value decodes to that role |
| RoomSpec.Open | sgs/room.py:19-35 | opening never touches the per-user role cache; a stored queue is kept only when no in-memory queue is built, and a built queue is exactly the shuffled roles with the stored one gone |
| RoomSpec.OpenReuses | sgs/room.py:25-28 | an existing stored queue is reused unchanged when n is 0 or its length is n; the in-memory queue is None |
| RoomSpec.OpenRebuilds | sgs/room.py:29-33 | otherwise the stored queue is deleted and the room holds a shuffled full role sequence with one Lord, the user hash untouched |
| RoomSpec.OpenWithoutBuild | sgs/room.py:19-35 | a room opened with n <= 1 and nothing stored has no queue, and refuses a new user |
| RoomSpec.PopRoleCached | sgs/room.py:55-57 | a user who already holds a role gets that role back and nothing changes |
| RoomSpec.PopRole | sgs/room.py:50-65 | a user already cached gets the same state back; a role handed out is the one now cached for that user; no other user's cached role changes; a newly dealt role shortens the queue by one |
| RoomSpec.PopRoleFresh | sgs/room.py:58-65 | a new user takes the last pending role of whichever queue is authoritative; it is recorded under that user and the queue loses exactly that role |
| RoomSpec.PopRoleExhausted | sgs/room.py:58-61 | a new user on an exhausted room is refused and the room is unchanged |
| RoomSpec.PopRoleIdempotent | sgs/room.py:50-65 | asking twice for the same user returns the same role, and the second call changes nothing |
| RoomSpec.FreshTail | sgs/room.py:50-65 | after one new user is dealt, the remaining distinct users are still new |
| RoomSpec.DealAll | sgs/room.py:50-65 | k distinct new users on a room with k pending roles all succeed, receive exactly the pending roles as a multiset, and the queue ends empty |
| RoomSpec.DealAllRecords | sgs/room.py:65 | every one of those users ends up recorded in the user hash |
| RoomSpec.UsersKept | sgs/room.py:55-65 | a recorded user stays recorded through later pops |
| RoomSpec.CacheAppends | sgs/room.py:124-131 | caching appends the queue's values after whatever was stored and answers the new stored length; the queue and user hash are untouched |
| RoomSpec.Cache | sgs/room.py:124-131 | `cache` succeeds exactly when an in-memory queue with roles exists; it answers the new stored length, which is at least the queue's length, and touches neither the queue nor the user cache; on failure nothing changes |
| RoomSpec.CacheThenReopen | sgs/room.py:124-131 | a new room's queue, cached and reopened by id, is pending in the store exactly as it was generated |
| SgsRoom.FirstLord | sgs/room.py:86-88 | the index of the first seat holding the Lord, with no Lord before it, or the seat count when no seat does |
| SgsRoom.RotatedAtLord | sgs/room.py:86-89 | the rotation exists exactly when some seat holds the Lord, keeps the length and starts at a Lord |
| SgsRoom.RotatedMultiset | sgs/room.py:88 | `role_cycle[i:] + role_cycle[0:i]` keeps every seat as often as it occurs |
| SgsRoom.RotatedOrder | sgs/room.py:88 | the rotation lists the seats from the Lord on, then those before it, each in its original order |
| SgsRoom.RotateToLord | sgs/room.py:86-89 | the seat loop returns the rotation at the first Lord, or nothing when no seat holds the Lord |
| SgsRoom.FirstLordAt | sgs/room.py:86-88 | an index with a Lord and no Lord before it is the first Lord |
| SgsRoom.FirstBad | sgs/room.py:81-84 | the index of the first scanned user whose stored value is not a role, with every earlier one a role |
| SgsRoom.FirstBadAt | sgs/room.py:81-84 | an index with a bad value and none before it is the first bad one |
| SgsRoom.SeatOf | sgs/room.py:82 | a seat holds the scanned user and the role whose value the hash stores for them |
| SgsRoom.SeatsOf | sgs/room.py:81-84 | the comprehension succeeds iff every scanned value is a role, and then gives one seat per scanned user in scan order |
| SgsRoom.Shuffle | sgs/room.py:85 | the shuffled seats are the seats in the chosen order, none lost |
| SgsRoom.UserSeated | sgs/room.py:81-85 | every user of the hash has a seat among the shuffled seats, with the role the hash stores |
| SgsRoom.LordFromHash | sgs/room.py:81-87 | a Lord seat comes from a user whose stored value is the Lord |
| SgsRoom.CheckAllSeatCycle | sgs/room.py:73-89 | when no role is pending and the room is not active, the check produces a cycle iff some user holds the Lord, and otherwise answers the empty tuple |
| SgsRoom.CheckAllSeatSeatsAll | sgs/room.py:81-88 | the cycle starts at the Lord and seats every user of the hash, one seat per scanned user |
| SgsRoom.CheckAllSeatNotReady | sgs/room.py:74 | a room still dealing roles, or already active, is never reported complete |
| SgsRoom.RoomsIndex.constructor | sgs/room.py:17 | `rooms_queue` starts empty |
| SgsRoom.Room.constructor | sgs/room.py:19-35 | the room state is the reuse-or-rebuild outcome, a sequence being built only for n > 1; only the room's queue key may change in the store |
| SgsRoom.Room.Len | sgs/room.py:111-115 | `len(room)` is the in-memory queue's length when there is one, else the stored list's length |
| SgsRoom.Room.PopRole | sgs/room.py:50-65 | the role returned and the new room state are those of the pop-role state machine; only this room's two keys change |
| SgsRoom.Room.Cache | sgs/room.py:124-131 | the store gains the queue's values at the tail of this room's list and the call answers the new length |
| SgsRoom.Room.Offline | sgs/room.py:120-122 | the room is no longer active; nothing else changes |
| SgsRoom.Room.CheckAllSeat | sgs/room.py:73-89 | the answer is the seat check of the room state, its active flag, the scan order and the shuffle |
| SgsRoom.Room.ScanSeats | sgs/room.py:81-84 | the loop builds exactly the comprehension's seats, or fails at the first value that is not a role |
| SgsRoom.Room.AllSeatDone | sgs/room.py:91-95 | a non-empty cycle makes the room active; anything else leaves the active set alone |
| BizRoom.DefaultRoomDeals | biz/room.py:19-38 | a room id with nothing stored, opened with n = 0, deals exactly a Lord and a Traitor |
| BizRoom.Room.constructor | biz/room.py:19-28 | the room state is the reuse-or-rebuild outcome, a sequence being built for every n; only the room's queue key may change |
| BizRoom.Room.Len | biz/room.py:59-63 | `len(room)` is the in-memory queue's length when there is one, else the stored list's length |
| BizRoom.Room.PopRole | biz/room.py:40-57 | the role returned and the new state are those of the pop-role state machine; only this room's two keys change |
| BizRoom.Room.Cache | biz/room.py:65-72 | the store gains the queue's values at the tail of this room's list and the call answers the new length |
| Cards.TypeValues | sgs/cards/card.py:15-26 | the low two bits of every type's value name its category, a value below 4 is a category, and no two types share a value |
| Cards.EqCategory | sgs/cards/card.py:28-32 | a subtype compared with a category value is equal exactly when it belongs to that category; every type equals its own value |
| Cards.EqAsymmetric | sgs/cards/card.py:28-32 | the comparison is one-way: a normal stratagem equals STRATAGEM, but STRATAGEM does not equal a normal stratagem |
| Cards.Make | sgs/cards/card.py:44-48 | `make` succeeds iff the class has a name or some names and a type; the card keeps the id and the type and takes the fixed name, or one of the names when there is none |
| Cards.SelectCollections | sgs/cards/card.py:58-69 | 'all' selects every configured collection, a name without commas selects itself, a list selects its items, and anything else is a KeyError |
| Cards.SelectJoined | sgs/cards/card.py:62-63 | a comma-joined string of comma-free names selects exactly those names |
| Cards.LastIndexOf | sgs/cards/card.py:80 | the last position of the character, with no later occurrence; none when it does not occur |
| Cards.RSplitSecond | sgs/cards/card.py:80 | `rsplit('(', 2)[1]` fails exactly when the header holds no '(' |
| Cards.ColorKey | sgs/cards/card.py:80-81 | an accepted colour key is one character and not a bracket |
| Cards.ColorKeyOfHeader | sgs/cards/card.py:80-81 | a header written `title(k)` with no bracket in the title has key k |
| Cards.PieceIds | sgs/cards/card.py:84-87 | the pieces of a bar-separated entry yield at most one card per piece, none with a blank name |
| Cards.PieceIdsAllNamed | sgs/cards/card.py:84-87 | when no piece is blank, piece t gets the colour key repeated t+1 times followed by the number, and its stripped name |
| Cards.PieceIdsStep | sgs/cards/card.py:84-87 | each piece yields its one card, or none when blank, before the later pieces' cards |
| Cards.PieceIdLength | sgs/cards/card.py:86 | with a one-character key, the id of the piece with k repetitions has length k plus the number's length, so different pieces of an entry get different ids |
| Cards.ColumnIds | sgs/cards/card.py:79-90 | one column's loop fails with the header's error, or yields the column's ids in table order |
| Cards.PieceLoop | sgs/cards/card.py:84-87 | the piece loop yields exactly the pieces' ids |
| Cards.ColumnSpecAppend | sgs/cards/card.py:82-90 | one more entry adds its own cards after the earlier ones |
| Cards.PlainColumn | sgs/cards/card.py:88-90 | a column of plain non-blank names gets one card per entry, with id key + number and the stripped name |
| Cards.LetterIndex | sgs/cards/card.py:108 | `ascii_letters.index(c)` is the position of c among a-z then A-Z, or fails when c is not a letter |
| Cards.SuitColor | sgs/cards/card.py:106-109 | the suit is one of the four suits; an empty id is an IndexError |
| Cards.SuitOfFirstLetter | sgs/cards/card.py:106-109 | the suit depends only on the first character; a lower-case letter and its upper case share it; a non-letter is a ValueError |
| Cards.Render | sgs/cards/card.py:106-112 | `str(card)` as written: an empty id is an IndexError; an id whose first character is not a letter is a ValueError from `suit_color`, which the f-string evaluates first; a one-letter id is an IndexError; it succeeds exactly on ids of two or more characters starting with a letter |
| Cards.RenderParts | sgs/cards/card.py:111-112 | the text is '[' + suit + the id's second character + ' ' + name + ']', and each part can be read back |
| Cards.RenderShowsKeyForSecondPiece | sgs/cards/card.py:106-112 | the second piece of a bar-separated entry, id "hh3", shows "h" rather than its number 3 |
| Cards.IdNumber | sgs/cards/card.py:86-89 | the number part of an id is a proper suffix of it |
| Cards.KeyRun | sgs/cards/card.py:86 | the length of the leading run of the key character |
| Cards.KeyRunShape | sgs/cards/card.py:86 | an id that starts with its key has a run of at least one |
| Cards.RenderNumber | sgs/cards/card.py:106-112 | `str(card)` showing the whole number after the key run: an empty id is an IndexError, an id whose first character is not a letter a ValueError, and every id starting with a letter renders |
| Cards.RenderNumberOfPiece | sgs/cards/card.py:106-112 | every piece of an entry renders the entry's number, however often the key was repeated |
| Cards.RepeatAll | sgs/cards/card.py:86 | `key * k` is k copies of the key |
| Cards.KeyRunOfRepeat | sgs/cards/card.py:86 | the key run of `key * k + n` is k and leaves n, when n does not start with the key |
| CardRegion.Reverse | sgs/cards/region.py:26-27 | the cards in drawing order have as many cards as the run they come from |
| CardRegion.ReverseIndex | sgs/cards/region.py:26-27 | the k-th card drawn is the k-th from the top of the run |
| CardRegion.ReverseMultiset | sgs/cards/region.py:26-27 | drawing a run keeps every card of it |
| CardRegion.ReverseCons | sgs/cards/region.py:26-27 | a card below a run is drawn after all of the run |
| CardRegion.DrawShort | sgs/cards/region.py:20-23 | too few cards in both piles: the draw fails before any card moves |
| CardRegion.Draw | sgs/cards/region.py:20-33 | `pop(n)` fails with the heap-empty error exactly when the two piles together hold fewer than n cards, and then leaves both piles as they were; otherwise it draws the requested count and the piles lose exactly that many cards |
| CardRegion.DrawFromPile | sgs/cards/region.py:20-27 | with enough face-down cards, the top n are drawn top first and the discard pile is untouched; putting them back in order restores the pile |
| CardRegion.DrawAfterReshuffle | sgs/cards/region.py:24-33 | with too few face-down cards, the discard pile is shuffled beneath them, all old face-down cards are drawn first, top first, and the discard pile ends empty |
| CardRegion.DrawConserves | sgs/cards/region.py:20-33 | no draw creates or loses a card; a failed draw leaves both piles as they were |
| CardRegion.TopSplit | sgs/cards/region.py:26-27 | the cards drawn and the cards left together are the pile |
| CardRegion.PushDownAlwaysFails | sgs/cards/region.py:38-39 | `push_down` as written raises TypeError on every call, since it adds a tuple to a list |
| CardRegion.PushDownAsWritten | sgs/cards/region.py:38-39 | as written, `push_down` always raises TypeError, because it adds a tuple to a list |
| CardRegion.PushedDown | sgs/cards/region.py:38-39 | the intended `push_down` puts the cards beneath the face-down pile, in argument order |
| CardRegion.PushDownDrawnLast | sgs/cards/region.py:38-39 | cards pushed down are drawn only after every card that was already face down |
| CardRegion.CardHeap.constructor | sgs/cards/region.py:13-18 | a new heap holds the shuffled loaded cards face down and an empty discard pile |
| CardRegion.CardHeap.Shuffle | sgs/cards/region.py:29-33 | the shuffled discard pile goes beneath the face-down cards, the discard pile empties, and no card is lost |
| CardRegion.CardHeap.Pop | sgs/cards/region.py:20-27 | the cards drawn and both piles afterwards are those of the draw function |
| CardRegion.CardHeap.PushUp | sgs/cards/region.py:35-36 | the cards go on top of the face-down pile in argument order |
| CardRegion.CardHeap.PushDown | sgs/cards/region.py:38-39 | the cards go beneath the face-down pile in argument order |
| CardRegion.CardHeap.Discard | sgs/cards/region.py:41-42 | the cards go on the discard pile in argument order |
| CardRegion.ReshuffleScenario | sgs/cards/region.py:20-42 | four cards face down, two drawn and discarded, then three drawn: the last two face-down cards come out first, then a reshuffled one |
| CardRegion.NewUserRole | sgs/cards/region.py:45-53 | a seat keeps the user, role and hero given and has the other fields at their defaults |
| Events.VisitOrder | sgs/events/__init__.py:32-35 | the visit order holds as many seats as the cycle |
| Events.VisitOrderRotates | sgs/events/__init__.py:32-37 | with 0 <= cur_idx < len, position p visits seat (cur_idx + p - 1) mod len |
| Events.VisitOrderPastEnd | sgs/events/__init__.py:34-35 | once cur_idx reaches the seat count, the seats come in their own order |
| Events.VisitOrderPermutes | sgs/events/__init__.py:32-37 | whatever the turn index, a pass visits every seat exactly once |
| Events.OfferedShares | sgs/events/game_events.py:24-28 | with u seats and 3u - 1 pooled heroes, position p >= 2 is offered `pool[3(p-2):3(p-1)]`, three heroes, and the Lord the monarch candidates plus the last two |
| Events.SeatSharesPrefix | sgs/events/game_events.py:28 | the shares of positions 2..k are the pool's first 3(k-1) heroes, in order |
| Events.PoolPartition | sgs/events/game_events.py:14-28 | the shares of positions 2..u followed by the Lord's two cover the pool exactly |
| Events.PoolPartAt | sgs/events/game_events.py:24-28 | each position's share is a slice of the pool that fits inside it |
| Events.SharesApart | sgs/events/game_events.py:24-28 | two different positions draw on different pool indices |
| Events.SharesDisjoint | sgs/events/game_events.py:12-28 | a pool of distinct heroes, as the sample gives, offers no pooled hero to two different positions |
| Events.TurnLogPositions | sgs/events/__init__.py:36-37 | a pass visits positions 1..len in increasing order, and every seat's user takes a turn |
| Events.StartOffers | sgs/events/game_events.py:24-29 | the opening pass sends one card per seat in visiting order, to that seat's user, for this room, at positions 1, 2, …; position 1 is offered the monarch pool plus the last two pool heroes |
| Events.TurnLog | sgs/events/__init__.py:32-37 | one cycle pass visits every seat in the given order, numbering positions from 1 |
| Events.FirstSeat | sgs/events/game_events.py:32-33 | the first seat of the user, with no earlier seat of theirs, or the seat count |
| Events.SetHero | sgs/events/game_events.py:31-34 | setting a hero keeps every seat's user and role and the number of seats |
| Events.SetHeroFirstMatch | sgs/events/game_events.py:31-34 | the intended `set_role_hero` gives the hero to the user's first seat only; with no seat of the user nothing changes |
| Events.SetRoleHeroAsWritten | sgs/events/game_events.py:31-34 | as written, a call that does not raise leaves the seats unchanged |
| Events.SetRoleHeroAsWrittenFails | sgs/events/game_events.py:31-34 | as written, a pick whose user holds a seat raises AttributeError, since a seat has no `set_hero`; a stranger's pick changes nothing |
| Events.ApplyPicks | sgs/events/game_events.py:18-19 | applying the queued picks keeps the number of seats |
| Events.ApplyPicksKeepsSeats | sgs/events/game_events.py:18-19 | picks only set heroes: the seats keep their users, roles and order |
| Events.TurnPassAsWritten | sgs/events/game_events.py:45-48 | as written, a cycle pass gets through only when there are no seats, and then the turn index stays as it was |
| Events.TurnPassAsWrittenFails | sgs/events/game_events.py:45-48 | as written, a pass over any seat raises AttributeError on `hero_name` before the turn index moves; an empty cycle passes |
| Events.EventList.constructor | sgs/events/__init__.py:10 | a seat's event list starts empty |
| Events.SharedLists | sgs/events/__init__.py:10 | `[[]] * n` is n references to one and the same empty list |
| Events.EventCenter.constructor | sgs/events/__init__.py:20-24 | a new centre keeps the room and cycle, starts at turn index 0, and reads the given picks from its queue |
| Events.EventCenter.SettleStart | sgs/events/__init__.py:32-37 | the opening event offers each seat, in visit order, the heroes of its position; nothing else changes |
| Events.EventCenter.SettleTurns | sgs/events/__init__.py:32-37 | the cycle event logs one turn per seat in the visit order fixed before the first turn, and the turn index grows by the seat count |
| Events.EventCenter.Start | sgs/events/__init__.py:27-30 | a population too small for either sample fails without change; otherwise the seats are offered their heroes, one pick per seat is applied from the queue, and one turn pass follows; this run uses the corrected `set_role_hero` and `each` of Findings rows 4 and 5, since as written the first seated pick raises AttributeError |
| Events.GameStartEvent.constructor | sgs/events/game_events.py:10-14 | the event keeps the centre and the two samples, with one shared list per seat |
| Events.GameStartEvent.Each | sgs/events/game_events.py:24-29 | the seat is sent one card with the room, its position and the heroes of that position |
| Events.GameStartEvent.SetRoleHero | sgs/events/game_events.py:31-34 | the seats become those of the intended first-match update; nothing else changes |
| Events.GameStartEvent.Trigger | sgs/events/game_events.py:16-19 | every seat is offered its heroes, then the first len(cycle) picks of the queue are applied in order and consumed, through the corrected `set_role_hero` of Findings row 4 (as written the first seated pick raises AttributeError) |
| Events.GameCycleEvent.constructor | sgs/events/__init__.py:8-10 | the event keeps the centre, with one shared list per seat |
| Events.GameCycleEvent.Each | sgs/events/game_events.py:45-48 | a turn is logged with its position and user, and the turn index grows by one |
| Events.GameCycleEvent.Trigger | sgs/events/game_events.py:38-43 | the loop runs one pass and stops: one turn per seat, in visit order, through the corrected `each` of Findings row 5 (as written the first turn raises AttributeError) |
| Users.RKey | biz/user.py:16-19 | the digested text is the game mode, a tab and the role |
| Users.RKeyInjective | biz/user.py:16-33 | with no tab in the game mode, distinct (game mode, role) pairs get distinct keys, so the records of different pairs never collide |
| Users.NewUser | biz/user.py:22-28 | a new user's record dict lists each of its keys once in insertion order |
| Users.Values | biz/user.py:56 | `records.values()` lists the records in insertion order |
| Users.AddRecordSpec | biz/user.py:30-37 | a record goes in iff there is no earlier record or it comes more than five minutes after the last one; it is stored under its key and sets the last record time, and otherwise nothing changes |
| Users.AddRecordTo | biz/user.py:30-37 | an accepted record is stored under its key with the call's time and becomes the last record time; a refused one changes nothing |
| Users.AddRecordReplaces | biz/user.py:33 | recording a pair already recorded replaces its entry, so the record count stays |
| Users.AddRecordAdds | biz/user.py:33 | an accepted new pair adds exactly one record |
| Users.AddRecordAsWrittenRefusesSecond | biz/user.py:14-32 | as written, every record carries the class-definition time, so once a user holds a record made in this process every later record is refused |
| Users.AddRecordAsWritten | biz/user.py:14-37 | as written, an accepted record carries the class-definition time, which also becomes the last record time; a refused one changes nothing |
| Users.AddRecordAfterGap | biz/user.py:30-37 | with the time of the call, two records more than five minutes apart are both accepted |
| Users.LuckNum | biz/user.py:39-41 | `luck_num` is the number of stored records less the luck consumed |
| Users.RepNum | biz/user.py:43-45 | `rep_num` is the number of stored records less the reputation consumed |
| Users.SortByTime | biz/user.py:51 | sorting keeps the number of records |
| Users.InsertByTime | biz/user.py:51 | one insertion adds exactly one record |
| Users.InsertByTimeMultiset | biz/user.py:51 | an insertion adds the record and loses none |
| Users.InsertByTimeBounded | biz/user.py:51 | inserting a record under a time bound into records under it keeps all of them under it |
| Users.InsertByTimeSorted | biz/user.py:51 | inserting into records sorted by time keeps them sorted |
| Users.SortByTimeSpec | biz/user.py:51 | `sorted(..., key=r_time)` orders the records by time, is a permutation of them, and is stable: the records of any one time keep their order |
| Users.SortByTimeSameTime | biz/user.py:51 | records that all carry one time, as under the frozen `r_time` default, come out of the sort in insertion order |
| Users.GetState | biz/user.py:47-57 | the snapshot keeps the user's name and last record time |
| Users.GetStateKeepsAll | biz/user.py:55-56 | with nothing consumed by both counters, the snapshot keeps every record and both counters |
| Users.GetStatePreservesCounters | biz/user.py:40-54 | dropping m = min(luck_consumed, rep_consumed) records and taking m off both counters leaves luck_num and rep_num as they were |
| Users.GetStateDropsOldest | biz/user.py:49-54 | the dropped records are the m oldest: no kept record is earlier than a dropped one, and together they are all the records |
| Users.User.constructor | biz/user.py:22-28 | a new user has no records, no last record time and nothing consumed |
| Users.User.AddRecord | biz/user.py:30-37 | the answer and the new user state are those of the add-record function, with the record taking the time of the call |
| Users.UserMgr.constructor | biz/user.py:66 | the user dict starts empty |
| Users.UserMgr.GetUser | biz/user.py:81-83 | a known name gives back that very user and the dict is unchanged; an unknown one gives a new user, now remembered under the name |
| Router.Find | utils/router.py:30 | a command has a handler under a match type iff some entry carries that key |
| Router.WithEntry | utils/router.py:19-21 | registration keeps each match type's commands distinct and keeps the match types registered once |
| Router.FindAppend | utils/router.py:19-21 | a new entry is found only for a key that had none |
| Router.RegisterKeepsFirst | utils/router.py:19-21 | `setdefault` keeps the first handler of a (match type, command) pair, gives a new pair the handler, and leaves every other pair as it was |
| Router.RegisterTwice | utils/router.py:19-21 | a second registration of the same pair changes nothing |
| Router.RegisterAll | utils/router.py:17-19 | registering a list of commands keeps the router well-formed |
| Router.WithRoute | utils/router.py:14-22 | `route` keeps the router well-formed |
| Router.RegisterAllEach | utils/router.py:17-19 | a list registers the handler under each of its commands that had none; other commands keep theirs |
| Router.FirstKeyword | utils/router.py:33-35 | a chosen keyword entry is registered and contained in the command |
| Router.FirstPrefix | utils/router.py:37-39 | a chosen prefix entry is registered and begins the command |
| Router.DispatchFirstFiring | utils/router.py:26-45 | the dispatch returns a result iff some match type, in registration order, finds a handler, and then it is the first such type's call; otherwise it raises NotImplementedError |
| Router.TypeOutcome | utils/router.py:27-44 | only the TEST type produces tester calls, and it never ends the dispatch; a match type the router does not know does nothing |
| Router.Dispatch | utils/router.py:26-45 | `route_todo` ends with a handler call exactly when some registered match type fires on the command; otherwise it raises NotImplementedError |
| Router.FullMatchExact | utils/router.py:29-31 | FULL_MATCH fires only on an exact key and calls that key's handler without the command |
| Router.KeywordFirst | utils/router.py:32-35 | KEYWORD picks the first registered keyword contained in the command |
| Router.KeywordNone | utils/router.py:32-35 | KEYWORD finds nothing iff no registered keyword occurs in the command |
| Router.PrefixFirst | utils/router.py:36-39 | PREFIX picks the first registered prefix of the command and passes on the command without it |
| Router.TestGoesOn | utils/router.py:40-44 | TEST never ends the dispatch: it calls the handler of every accepting tester, in order, with the whole command |
| Router.Routes.constructor | utils/router.py:5 | the router starts empty |
| Router.Routes.Register | utils/router.py:19-21 | one `setdefault` pair updates the router as the registration function does |
| Router.Routes.Route | utils/router.py:14-22 | `route(cmd, match_type)(func)` updates the router as the route function does |
| Router.Routes.RouteTodo | utils/router.py:26-45 | the loop over match types gives the dispatch function's TEST calls and result |
| Router.Routes.TypeStep | utils/router.py:28-44 | one arm of the `match` yields what that match type contributes: a call that ends the dispatch, or TEST calls |
| Router.Routes.KeywordScan | utils/router.py:33-35 | the KEYWORD loop stops at the first registered keyword contained in the command |
| Router.Routes.PrefixScan | utils/router.py:37-39 | the PREFIX loop stops at the first registered prefix of the command |
| Router.Routes.TestScan | utils/router.py:41-44 | the TEST loop calls every accepting tester's handler, in registration order |
| HeroRecord.CampOf | sgs/heros/hero.py:13-21 | `Camp(s)` finds a member only by its exact value |
| HeroRecord.GetValue | sgs/heros/hero.py:23-28 | `get_value` raises IndexError exactly on an empty name; a known camp it returns has the name's first character as its value |
| HeroRecord.GetValueFirstChar | sgs/heros/hero.py:23-28 | only the first character matters: any text that starts with a camp's character decodes to that camp |
| HeroRecord.GetValueUnknownName | sgs/heros/hero.py:16-28 | '未知' decodes to UNKNOWN only through the ValueError fallback, because its first character is no member's value |
| HeroRecord.UniName | sgs/heros/hero.py:117-119 | the unique name is the name, then '@', then the pack |
| HeroRecord.UniNameInjective | sgs/heros/hero.py:117-119 | for names without '@', different (name, pack) pairs give different unique names |
| HeroRecord.HpView | sgs/heros/hero.py:75-82 | a non-zero stored hp/hp_max, or any value on a hero with no parser, is returned unchanged; a zero on a parser hero becomes the least (hp) or greatest (hp_max) of `hps`, which fails on an empty `hps` |
| HeroRecord.Min | sgs/heros/hero.py:81 | `min` of a non-empty list is an element no greater than any other |
| HeroRecord.Max | sgs/heros/hero.py:81 | `max` of a non-empty list is an element no less than any other |
| HeroRecord.HpBelowMax | sgs/heros/hero.py:75-82 | when both fall back to the same `hps`, the hp view is at most the hp_max view |
| HeroRecord.Hero.constructor | sgs/heros/hero.py:49-54 | a new hero has its pack and name and no image |
| HeroRecord.Hero.SetImage | sgs/heros/hero.py:111-112 | `set_image` stores the given image |
| HeroRecord.Hero.SetImageAuthor | sgs/heros/hero.py:107-109 | the author is written only when the hero has an image; the picture's source stays the same |
| HeroRecord.DumpPath | sgs/heros/hero.py:133-135 | the file `dump` writes always ends in `.pickle` |
| HeroRecord.LoadTargetOf | sgs/heros/hero.py:139-147 | `load` globs exactly when the path is not a `.pickle` file and no pack is given, with pattern `name@*.pickle`; otherwise it reads one file, which ends in `.pickle` |
| HeroRecord.DumpThenLoad | sgs/heros/hero.py:133-147 | `load` reads back the file `dump` wrote: the same file when the path ends in `.pickle` or a pack is given, otherwise a file its `name@*.pickle` glob matches |
| ClassProperty.Made | utils/__init__.py:2-7 | built from a callable, the descriptor calls it and does not cache; built from anything else, it has no method yet and caches iff the argument is truthy; nothing is stored and nothing has been called |
| ClassProperty.Decorated | utils/__init__.py:9-11 | applying the descriptor to a method sets that method and keeps the mode and any stored value |
| ClassProperty.Invoked | utils/__init__.py:18-21 | calling the method gives AttributeError exactly when none is set; otherwise the callable's result for the owner class, or the assigned constant |
| ClassProperty.Got | utils/__init__.py:16-21 | a cached property with a stored value returns it and changes nothing; an access fails exactly when no method is set and no stored value is returned; a cached access stores what it returns; at most one method call per access |
| ClassProperty.SetTo | utils/__init__.py:23-34 | a `property_val` sets the cached flag; a callable becomes the method; otherwise a cached property stores the value and an uncached one returns it from then on |
| ClassProperty.Deleted | utils/__init__.py:36-38 | deleting fails exactly when the property is cached but nothing is stored; a cached property is left with nothing stored; method, flag and call count stay |
| ClassProperty.FromCallableUncached | utils/__init__.py:2-18 | a property built from a callable calls it again on each access with that access's owner class |
| ClassProperty.FromFlag | utils/__init__.py:2-21 | a property built from a flag caches iff the flag is truthy: the first access stores the result, and a later access returns it without another call, whatever the owner; otherwise every access calls the method |
| ClassProperty.FlagWithoutMethod | utils/__init__.py:4-18 | a descriptor built from a flag and never given a method raises AttributeError on access and changes nothing |
| ClassProperty.CachedStable | utils/__init__.py:19-20 | in cached mode with a value stored, an access returns it and changes nothing |
| ClassProperty.SetCallable | utils/__init__.py:29-30 | assigning a callable replaces the method and keeps the mode and any stored value, which later accesses still return |
| ClassProperty.SetPlainCached | utils/__init__.py:31-32 | assigning a plain value in cached mode stores it, and the next access returns it without a call |
| ClassProperty.SetPlainUncached | utils/__init__.py:33-34 | assigning a plain value in uncached mode makes every access return that constant |
| ClassProperty.SetPropertyVal | utils/__init__.py:23-28 | a `property_val(value, cached)` first sets the mode to `bool(cached)` and then assigns the value as usual |
| ClassProperty.DeleteRecomputes | utils/__init__.py:19-38 | in cached mode, deleting drops the stored value, so the next access calls the method again and stores the new result |
| ClassProperty.DeleteOtherwise | utils/__init__.py:36-38 | deleting in uncached mode does nothing; in cached mode with nothing stored it raises AttributeError for `_cache` |
| ClassProperty.GotKeepsCache | utils/__init__.py:19-21 | in cached mode, a successful access leaves its result stored, and an already stored value is never replaced by an access |
| ClassProperty.Descriptor.constructor | utils/__init__.py:2-7 | the new descriptor has the state the construction function gives |
| ClassProperty.Descriptor.Apply | utils/__init__.py:9-11 | `__call__` returns the descriptor itself, with the decorated state |
| ClassProperty.Descriptor.SetName | utils/__init__.py:13-14 | `__set_name__` records the name and changes nothing else |
| ClassProperty.Descriptor.Get | utils/__init__.py:16-21 | `__get__` returns the result of the access function and moves to its state |
| ClassProperty.Descriptor.Set | utils/__init__.py:25-34 | `__set__` moves to the state the assignment function gives |
| ClassProperty.Descriptor.Delete | utils/__init__.py:36-38 | `__delete__` moves to the state the deletion function gives and raises what it gives |
| Crawler.ClassNamed | sgs/crawler.py:39-41 | the class a lower-cased name files under is the one with that name, and every class's name finds it |
| Crawler.LocalSubclass | sgs/crawler.py:33-42 | 'Strong' maps to bold and 'Emphasis' to italic; any other name maps to a class exactly when some subclass of the owner has that lower-cased name, and then to that subclass |
| Crawler.TextNew | sgs/crawler.py:25-27 | a name missing from the table keeps the requested class; otherwise the class is bold for 'Strong', italic for 'Emphasis', or a subclass of the owner named by the name |
| Crawler.TextNewFromText | sgs/crawler.py:25-42 | with the table built for `Text`, 'Strong' makes a `B`, 'Emphasis' an `I`, a lower-cased text class name that class, and any other name keeps the class called |
| Crawler.TextNewFromSubclass | sgs/crawler.py:25-42 | the table is cached by the first class that reads it: built for a proper subclass, it knows only 'Strong', 'Emphasis' and that subclass's own name |
| Crawler.ItalicShape | sgs/crawler.py:48-50 | `I` renders empty text as '' and other text between one star on each side |
| Crawler.BoldShape | sgs/crawler.py:65-67 | `B` renders empty text as '' and other text between two stars on each side |
| Crawler.HeaderShape | sgs/crawler.py:73-75 | `Header` renders `level` hashes (one by default, none below one), a space, then the text |
| Crawler.TextMd | sgs/crawler.py:45-80 | italic and bold render empty exactly for empty text; plain and caption text render as themselves |
| Crawler.SrcSetLastWins | sgs/crawler.py:88-91 | the `srcset` loop succeeds exactly when every item is "url descriptor"; then each descriptor maps to the url of its last item, and a descriptor no item names keeps its earlier source |
| Crawler.BuildSrcSet | sgs/crawler.py:87-91 | the loop over the items builds the source set the specification function gives |
| Crawler.NewImg | sgs/crawler.py:86-94 | a tag without `src` is a KeyError, and the only other failure is a ValueError from a malformed `srcset` item; a built image keeps the author given and the tag's alt |
| Crawler.NewImgSources | sgs/crawler.py:86-94 | a tag without `src` is a KeyError; any other failure is a ValueError from a bad `srcset` item; with no or an empty `srcset`, `src` under '1x' is the only source |
| Crawler.AddSrcsFails | sgs/crawler.py:89-90 | the only way the `srcset` loop fails is a ValueError |
| Crawler.ImgSrc | sgs/crawler.py:96-102 | the lookup succeeds exactly for a known source key (the default `1x` when none is given), fails only with KeyError, and answers that source or the `data-src` |
| Crawler.ImgSrcPrefersHttp | sgs/crawler.py:96-102 | `img_src` finds a source exactly for a known key ('1x' by default); an http source is kept, otherwise an http `data-src` replaces it, so the result is http whenever either is |
| Crawler.ImgMd | sgs/crawler.py:107-109 | `md_format` of an image succeeds iff `img_src` does and is `![alt](src)` around that source |
| Crawler.KeepSpec | sgs/crawler.py:126 | `filter(None, contents)` keeps exactly the truthy children, in order, and keeps all of them when all are truthy |
| Crawler.BlockCheck | sgs/crawler.py:122-124 | a block passes the checks iff its name is not black-listed, none of its classes is, and its name is white-listed |
| Crawler.NewBlock | sgs/crawler.py:121-127 | a block is built exactly when its name is white-listed and neither the name nor any class is black-listed; it keeps its name and only truthy children |
| Crawler.NewBlockChecks | sgs/crawler.py:121-171 | a black-listed name or class is a KeyError before the white list is consulted; a name off the white list is an AssertionError; a block built holds the truthy children |
| Crawler.MdAll | sgs/crawler.py:152-153 | rendering the children succeeds with one rendering per child |
| Crawler.Md | sgs/crawler.py:148-184 | rendering a block tree fails only with the KeyError of an image's missing source key; strings and texts always render; a crawled 'table' renders as the empty string, because its layout pass has used up the children generator |
| Crawler.MdAllEach | sgs/crawler.py:152-153 | each rendered child is the rendering of the child at the same place |
| Crawler.BlockLines | sgs/crawler.py:148-153 | a block rendered with a one-character `line_break` that no child rendering holds splits back on it into its children's renderings, each made without `line_break` |
| Crawler.ListLines | sgs/crawler.py:180-181 | a `ul` renders one line per child, the child's rendering plus two spaces, joined by newlines |
| Crawler.ItemLeader | sgs/crawler.py:182-183 | a `li` renders its leader, a space, then its content as a general block, and fails exactly when the content does |
| Crawler.GroupsSpec | sgs/crawler.py:198-212 | the groups put back together are the blocks in order; every run is a non-empty sequence of `li` blocks; every other block stands alone; no two runs are adjacent, so each run is maximal |
| Crawler.Groups | sgs/crawler.py:198-212 | there are never more groups than blocks, and there are none exactly when there are no blocks |
| Crawler.CollectShape | sgs/crawler.py:198-212 | `list_collect` yields no top-level `li`, and each run becomes one non-empty `ul` with the default leader |
| Crawler.Collect | sgs/crawler.py:198-212 | `list_collect` yields no more blocks than it was given, and yields none exactly when it was given none |
| Crawler.ListCollect | sgs/crawler.py:198-212 | the generator's loop, gathering `li` blocks in `lis` and flushing them as one `ul`, yields the grouping function's result |
| CrawlerTable.Copies | sgs/crawler.py:250-265 | a cell with colspan c stands for c copies of itself when c > 1 and for one copy otherwise |
| CrawlerTable.RotateDecreases | sgs/crawler.py:275-282 | each turn of the `_add_rowspan_cols` loop removes the matched front cell from the cells still at or after the column, so the loop ends |
| CrawlerTable.AddRowspan | sgs/crawler.py:272-283 | the column advances by exactly the number of cells appended to the row, the queue never grows, and on return the queue's front cell is not at the new column |
| CrawlerTable.AddRowspanSpec | sgs/crawler.py:272-283 | the column advances by one per appended cell, the row keeps its old cells and only gains cached cells, the queue never grows, and on exit the front cell is not at the new column |
| CrawlerTable.AddRowspanNoMatch | sgs/crawler.py:275 | when the front cached cell is not at the current column, nothing is appended and nothing changes |
| CrawlerTable.DecrementAll | sgs/crawler.py:246-248 | a row without `td` never makes the queue longer |
| CrawlerTable.DecrementAllSpec | sgs/crawler.py:246-248 | after a row without `td` every cell left covers one row fewer and is not at zero; every cell with count other than one stays, one row shorter |
| CrawlerTable.Flush | sgs/crawler.py:241-269 | flushing empties the pending row and keeps the headers and the queue |
| CrawlerTable.PlaceCell | sgs/crawler.py:254-266 | placing a `td` leaves headers and finished rows alone; with a positive colspan the column advances by exactly the number of cells the row gains, which is at least the colspan |
| CrawlerTable.IterFrom | sgs/crawler.py:230-270 | a pass always ends with no pending row, a pass that has seen a `td` reports it, and the headers only grow |
| CrawlerTable.NotConsumedIff | sgs/crawler.py:236-270 | `iter_children` returns True exactly when none of its direct children is a `td` |
| CrawlerTable.RecordsNonEmpty | sgs/crawler.py:241-269 | only non-empty rows reach `records`, and the pass ends with no pending row |
| CrawlerTable.TableLayoutOf | sgs/crawler.py:223-228 | the layout of a 'table' has no pending row and no empty row among its records |
| CrawlerTable.HeaderSpan | sgs/crawler.py:249-253 | a `th` with colspan c adds max(c, 1) copies of itself to the headers and changes nothing else |
| CrawlerTable.CellSpan | sgs/crawler.py:254-266 | with nothing cached, a `td` with colspan c adds max(c, 1) copies of itself to the row and moves the column on by c |
| CrawlerTable.RowspanScenario | sgs/crawler.py:245-283 | a cell spanning two rows repeats at the same column of the next row: rows (a rowspan=2, b) and (c) lay out as [a, b] and [a, c] |
| CrawlerTable.EmptyRowScenario | sgs/crawler.py:245-260 | a row without cells uses up one row of each cached cell: with a rowspan=3 cell, rows (a, b), (), (c) lay out as [a, b] and [a, c] |
| CrawlerTable.TableLayout.constructor | sgs/crawler.py:223-228 | `Table('table', contents)` starts from empty fields and ends in the layout the pass function gives |
| CrawlerTable.TableLayout.AddRowspanCols | sgs/crawler.py:272-283 | the while loop ends in the column, row and queue the rowspan function gives, leaving headers and records alone |
| CrawlerTable.TableLayout.PlaceTd | sgs/crawler.py:254-266 | the `td` branch updates the row, the queue and the column exactly as the cell-placing function says |
| CrawlerTable.TableLayout.IterChildren | sgs/crawler.py:230-270 | the loop over the children, recursing into sections, ends in the flag and fields the pass function gives |
| HeroOutline.DigitRun | sgs/heros/__init__.py:37 | the leading digit run is as long as it can be: all digits, and followed by a non-digit or the end |
| HeroOutline.HpLine | sgs/heros/__init__.py:37-126 | a line the hp pattern accepts starts with `HP=` followed by a digit |
| HeroOutline.HpLineAccepts | sgs/heros/__init__.py:37-125 | the hp parser accepts exactly the lines `fullmatch` accepts: `HP=`, digits, and optionally `/` and digits, with nothing else |
| HeroOutline.HpLineRoundTrip | sgs/heros/__init__.py:37-126 | `HP=a` parses back to (a, 0) and `HP=a/b` to (a, b) |
| HeroOutline.HpValuesRoundTrip | sgs/heros/__init__.py:37-126 | the part after `HP=` parses back to the numbers it was written from |
| HeroOutline.WithHp | sgs/heros/__init__.py:126-128 | an hp line sets hp to a and hp_max to b, or to a when b is 0, and changes no other field |
| HeroOutline.MdKeyValue | sgs/__init__.py:26-28 | a matching line starts with the key and a colon, and the value read contains no white space |
| HeroOutline.MdKeyRoundTrip | sgs/__init__.py:26-91 | a `key: value` line, with or without a final newline, reads back its value when the value has no white space |
| HeroOutline.FirstKey | sgs/__init__.py:89-92 | the chosen field is the first whose pattern matches, and none is chosen iff no pattern matches |
| HeroOutline.HeadingSetsLevel | sgs/heros/__init__.py:67-91 | a processed heading sets the level to its own; a level-2 heading leaves status on; a level-1 heading leaves status on iff it is '武将牌'; a heading level without a handler raises |
| HeroOutline.Processed | sgs/heros/__init__.py:67-79 | a node skipped by the level check changes nothing; a heading of a level without a handler raises after setting the level |
| HeroOutline.Dispatched | sgs/heros/__init__.py:81-106 | a level without a handler raises and changes nothing; levels 1 and 2 keep the heroes; level 3 keeps them or appends one new hero of the current pack; levels 1 to 3 keep the level |
| HeroOutline.DeeperSkipped | sgs/heros/__init__.py:55-71 | a heading deeper than the current level is skipped while status is off, and nothing changes |
| HeroOutline.ShallowerProcessed | sgs/heros/__init__.py:60-61 | a heading at the current level or higher always passes, whatever the status |
| HeroOutline.BodyDescends | sgs/heros/__init__.py:62-77 | a node without a level always passes; the first after a heading descends one level and turns status off; later ones stay at that level |
| HeroOutline.InvalidTopIgnoresSub | sgs/heros/__init__.py:81-85 | a level-1 heading other than '武将牌' turns status off, so the level-2 heading after it changes nothing |
| HeroOutline.SetextHeadingNotHeading | sgs/heros/__init__.py:67-101 | a setext heading sets the level like any heading, but no handler treats it as a 'Heading': level 1 turns status off, levels 2 and 3 name no pack and add no hero, level 4 has no handler for its type |
| HeroOutline.SpanFirstChild | sgs/heros/__init__.py:142-146 | a bold or italic span with no children raises IndexError, and one whose first child is not raw text raises KeyError, with the manager unchanged; otherwise only the first child's text is kept |
| HeroOutline.HeroHeading | sgs/heros/__init__.py:93-101 | a level-3 heading whose first child is raw text appends exactly one hero for the current pack; another first child turns status off in the current manager, and the older one (sgs/__init__.py:68-70) raises KeyError instead |
| HeroOutline.AddedLineKeeps | sgs/heros/__init__.py:115-140 | a line changes only the last hero, and it either adds nothing or adds exactly one kept line |
| HeroOutline.AddedLine | sgs/heros/__init__.py:115-140 | a line only ever raises IndexError, when there is no hero, and then nothing changes; it changes only the heroes, never their number; the kept lines stay as they were or gain one at the end |
| HeroOutline.HpLineNotKept | sgs/heros/__init__.py:125-129 | an hp line sets hp and hp_max of the current hero and is not kept |
| HeroOutline.MdKeyLineNotKept | sgs/__init__.py:89-92 | in the older manager a `key: value` line for an md-key field sets that field of the current hero and is not kept |
| HeroOutline.MonarchLineKept | sgs/heros/__init__.py:135-140 | any other non-empty line is kept, as an `li` with the leader inside a list item and as a `div` otherwise; a line holding '主公技' also marks the current hero as a monarch, and nothing else about the hero changes |
| HeroOutline.ExtendsTrans | sgs/heros/__init__.py:99-124 | "only appended to, only the last written" composes over successive steps |
| HeroOutline.AddedLineExtends | sgs/heros/__init__.py:115-140 | a line never removes, renames or reorders a hero |
| HeroOutline.ParaFromExtends | sgs/heros/__init__.py:142-153 | the paragraph loop never removes, renames or reorders a hero |
| HeroOutline.ParagraphExtends | sgs/heros/__init__.py:108-156 | a paragraph never removes, renames or reorders a hero |
| HeroOutline.ParagraphDone | sgs/heros/__init__.py:108-156 | a paragraph changes only the heroes, and never their number |
| HeroOutline.ProcessedExtends | sgs/heros/__init__.py:67-79 | processing a node never removes, renames or reorders a hero and writes only to the last one, so body lines belong to the hero of the latest level-3 heading |
| HeroOutline.DispatchedExtends | sgs/heros/__init__.py:81-106 | the level handlers never remove, rename or reorder a hero |
| HeroOutline.ItemsExtends | sgs/heros/__init__.py:158-166 | a list never removes, renames or reorders a hero |
| HeroOutline.ChildrenExtends | sgs/heros/__init__.py:51-52 | a sequence of nodes never removes, renames or reorders a hero |
| HeroOutline.Search | sgs/heros/__init__.py:172-176 | a search returns no more heroes than there are |
| HeroOutline.SearchSpec | sgs/heros/__init__.py:172-176 | a hero is found exactly when its name contains the query and its pack contains the filter, '*' matching every pack |
| HeroOutline.AllHeros | sgs/heros/__init__.py:182-184 | `all_heros` lists `name@pack` of every hero, in order |
| HeroOutline.Monarchs | sgs/heros/__init__.py:178-180 | a name is among the monarchs exactly when some hero of that name is marked as a monarch |
| HeroOutline.MonarchListed | sgs/heros/__init__.py:135-180 | after a monarch line the current hero's name is among the monarchs |
| HeroOutline.HeroHeadingListed | sgs/heros/__init__.py:93-184 | the hero a raw-text level-3 heading appends is listed last in `all_heros`, as `name@pack` |
| HeroOutline.HeroMgr.constructor | sgs/heros/__init__.py:28-33 | a fresh manager has no heroes, level 1, no pack, status on and no line prefix |
| HeroOutline.HeroMgr.ProcessNodes | sgs/heros/__init__.py:51-52 | the loop over the nodes ends in the state and exception the sequence function gives |
| HeroOutline.HeroMgr.ProcessNode | sgs/heros/__init__.py:67-79 | `process_node` ends in the state and exception the node function gives |
| HeroOutline.HeroMgr.ProcessLevel | sgs/heros/__init__.py:81-106 | the level handlers end in the state and exception the dispatch function gives |
| HeroOutline.HeroMgr.ProcessList | sgs/heros/__init__.py:158-166 | `process_List` ends in the state and exception the list function gives |
| HeroOutline.HeroMgr.ProcessParagraph | sgs/heros/__init__.py:108-156 | the paragraph loop ends in the state and exception the paragraph function gives |
| HeroOutline.HeroMgr.AddToLines | sgs/heros/__init__.py:115-140 | `add_to_lines` ends in the state, lines and exception the line function gives |
| HeroOutline.Load | sgs/heros/__init__.py:43-53 | `load` returns a new manager that has processed the document's nodes as the document function gives |
| LegacyHero.GetValue | sgs/hero.py:18-23 | the older `get_value` returns a known camp only for its exact value and UNKNOWN for every name that is no member's value |
| LegacyHero.GetValueRoundTrip | sgs/hero.py:10-23 | every camp's value reads back as that camp |
| LegacyHero.GetValueWholeName | sgs/hero.py:18-23 | a longer name such as "蜀国" is UNKNOWN here, while the current record's first-character rule (sgs/heros/hero.py:23-28) reads it as SHU |
| LegacyHero.MdFieldsSpec | sgs/hero.py:45-49 | exactly the fields with `md_key` metadata get an entry, under that key, or under the field name when the key is empty |
| LegacyHero.MdFields | sgs/hero.py:45-49 | there are never more entries than fields, and a first field with md key metadata gives the first entry, under its key or its name |
| LegacyHero.LegacyMdFields | sgs/hero.py:30-49 | the older hero's md fields are `biligame_key` and `biligame_skill_ver`, each under its own name, and they are the keys the older manager matches |
| LegacyHero.SectionsFromConcat | sgs/hero.py:72-82 | the loop, from any accumulators, keeps every item, in order |
| LegacyHero.SectionsFromGood | sgs/hero.py:72-82 | the loop keeps closed sections non-empty and headed in bold after the first, and leaves the last section empty only when nothing was given |
| LegacyHero.Sections | sgs/hero.py:71-82 | the sections, read one after another, hold every item's node in the original order |
| LegacyHero.SectionsSpec | sgs/hero.py:70-83 | the sections put back together are the items' nodes in order; each nested list opens a section headed by its joined text in bold; no section but the last is empty, and that one only when there are no items |
| LegacyHero.SubFirst | sgs/hero.py:75-79 | a nested list first in the items heads the first section, with no empty section before it |
| LegacyHero.ToStr | sgs/hero.py:70-83 | the loop with its `sec`/`secs` accumulators builds the sections the grouping function gives |
| AliasParser.NewAnchor | sgs/parser.py:124-129 | `Anchor(level, stack, sections)` takes the level, stack and sections given and runs; the section index is 0 when there are sections and -1 otherwise |
| AliasParser.Entered | sgs/parser.py:131-143 | entering without an anchor raises AttributeError; entering never touches the fields or the pending key; a running anchor at level 0 or more goes one level up |
| AliasParser.Exited | sgs/parser.py:144-150 | leaving never touches the lists or fields; from level 1 or more it goes one level down without error; from level 0 it clears the pending key |
| AliasParser.Cleared | sgs/parser.py:24-25 | `clear_alias_key` succeeds exactly when the key, the hit line and the anchor are all set; the key is gone afterwards in every case |
| AliasParser.PyIntRoundTrip | sgs/hero.py:35 | the `int` conversion reads back every number written by `str` |
| AliasParser.PyInt | sgs/hero.py:35 | a parsed number comes from a non-empty text, and a negative one from a text with a leading minus; a bare sign or an empty text is refused |
| AliasParser.Transformed | sgs/parser.py:35-36 | no conversion keeps the line; only `int` fails with ValueError, and only the first-character camp fails, with IndexError on an empty line; camp conversions give camps |
| AliasParser.FirstAliasAt | sgs/parser.py:43-50 | the loop over the alias table, as written: it stops at the first string alias, in field order, that occurs in the line, raises TypeError at a tuple alias reached before that, and finds nothing exactly when every alias is a string that does not occur |
| AliasParser.MatchIgnoresHit | sgs/parser.py:28-29 | a line equal to the one that selected the pending key changes nothing |
| AliasParser.MatchSelects | sgs/parser.py:42-50 | with no pending key, the first alias in the line makes its field the pending key, records the line, and re-initialises the shared anchor from that field's anchor number, current value and sections |
| AliasParser.FirstAliasIs | sgs/parser.py:43-44 | a string alias that occurs, after only string aliases that do not, is the one chosen |
| AliasParser.FirstAliasNone | sgs/parser.py:43-44 | nothing is chosen, and nothing raised, when every alias is a string that does not occur |
| AliasParser.FirstTupleIs | sgs/parser.py:43-44 | a tuple alias reached after only string aliases that do not occur raises TypeError at that entry |
| AliasParser.HostTableRaises | sgs/heros/hero.py:55-57 | if the host mixes in `HeroParser` of `sgs/parser.py` (assumed: the host takes its parsers from `sgs/heros/parser.py`, which is not part of this model), then with the host's table (`性别`, `势力`, then the tuple `('定位', '武将定位')`) every line holding neither of the first two raises TypeError while no key is pending, and nothing changes |
| AliasParser.HostPositionLineRaises | sgs/heros/hero.py:57 | under the same assumed pairing with `HeroParser` of `sgs/parser.py`, the line `武将定位`, which names the host's position, raises TypeError instead of selecting `position` |
| AliasParser.FirstAliasIntended | sgs/parser.py:43-50 | the intended scan, where a tuple alias stands for each of its members: the first field one of whose aliases occurs is chosen, and none exactly when no alias occurs |
| AliasParser.IntendedAgrees | sgs/parser.py:43-50 | on a table of string aliases only, the code as written never raises and chooses the same field as the intended scan |
| AliasParser.IntendedHostPosition | sgs/heros/hero.py:55-57 | under the same assumed pairing, with the intended scan a line holding either member of the host's position tuple, and neither earlier alias, selects `position` |
| AliasParser.MatchNoAlias | sgs/parser.py:42-50 | with no pending key, a line in which no string alias occurs, on a table with no tuple alias reached, changes nothing |
| AliasParser.MatchStores | sgs/parser.py:34-41 | with a pending field and the anchor below level 0, the converted line is stored into that field and the pending key, hit line and anchor attribute are deleted |
| AliasParser.MatchAppends | sgs/parser.py:34-38 | with a pending field and the anchor at level 0 or more, the converted line is appended to the list the anchor's stack refers to, and nothing else changes |
| AliasParser.MatchBadValue | sgs/parser.py:35-36 | a line the field's conversion rejects (a non-number for `int`, an empty name for the first-character camp) raises and changes nothing |
| AliasParser.MatchAuthor | sgs/parser.py:31-33 | with the portrait's author pending, the line becomes the stored image's author and the pending key is cleared |
| AliasParser.Matched | sgs/parser.py:27-50 | a repeated hit line changes nothing; with no pending key the matcher raises TypeError exactly when the scan reaches a tuple alias first, and selects a key exactly when an alias is found |
| AliasParser.HeaderSkip | sgs/parser.py:52-67 | when no exception is raised, `parse_header` returns True exactly when no title line and no pack marker occurs, at any depth |
| AliasParser.HeaderTitle | sgs/parser.py:57-60 | a title line sets the title to the stripped line without its '武将称号：' prefix and makes the header pass return False |
| AliasParser.HeaderFrom | sgs/parser.py:52-67 | `parse_header` never turns a false flag back into true |
| AliasParser.EnterNotRunning | sgs/parser.py:131-152 | when the anchor is not running, its context changes nothing on entry and runs no exit code |
| AliasParser.EnterExitRestores | sgs/parser.py:131-150 | running at level 0 or more, the context raises the level by one for the block and afterwards restores level, stack and section index without calling back; a matching section gets a new list as the stack, appended to the old one, and moves the section index on |
| AliasParser.ExitCallsBack | sgs/parser.py:144-150 | leaving a block at level 0 drops the level below 0 and calls back `clear_alias_key`, which deletes the pending key and the anchor attribute |
| AliasParser.CrawlGuard | sgs/hero.py:51-60 | `crawl_by_name` crawls nothing and changes nothing for a hero with a detail pack or the key 'none' |
| AliasParser.Crawled | sgs/hero.py:51-60 | a hero without `detail_pack` raises AttributeError; a hero with a detail pack, or whose key is 'none', is returned unchanged |
| AliasParser.LegacyStartValid | sgs/hero.py:26-43 | a fresh older hero has consistent parser attributes |
| AliasParser.ClearedValid | sgs/parser.py:24-25 | `clear_alias_key` keeps the parser's attributes consistent |
| AliasParser.TransformedPlain | sgs/parser.py:35-36 | a converted line is never a list |
| AliasParser.MatchedValid | sgs/parser.py:27-50 | the alias matcher keeps the parser's attributes consistent: a pending key goes with its hit line and the initialised anchor, and every list reference points at a list |
| AliasParser.EnteredValid | sgs/parser.py:131-142 | entering the anchor's context keeps the attributes consistent, and the saved stack is a list |
| AliasParser.ExitedValid | sgs/parser.py:144-150 | leaving the anchor's context keeps the attributes consistent |
| AliasParser.VersionCheckedValid | sgs/parser.py:92-97 | the end of a table keeps the attributes consistent |
| AliasParser.HeaderStepValid | sgs/parser.py:55-66 | one header line keeps the attributes consistent |
| AliasParser.HeaderFromValid | sgs/parser.py:52-67 | the header pass keeps the attributes consistent |
| AliasParser.ModuleFrom | sgs/parser.py:69-109 | `parse_module` returns True only without an exception and only after some line |
| AliasParser.ModuleStepValid | sgs/parser.py:71-109 | one module line keeps the attributes consistent |
| AliasParser.TextStepValid | sgs/parser.py:73-85 | a text line of a module keeps the attributes consistent |
| AliasParser.PictureStepValid | sgs/parser.py:102-109 | a picture line keeps the attributes consistent |
| AliasParser.BlockStepValid | sgs/parser.py:98-101 | a nested block, inside the anchor's context, keeps the attributes consistent |
| AliasParser.ModuleFromValid | sgs/parser.py:69-109 | the module pass keeps the attributes consistent |
| AliasParser.TableDoneValid | sgs/parser.py:86-97 | a table keeps the attributes consistent |
| AliasParser.TableDone | sgs/parser.py:86-97 | a table with the anchor attribute deleted raises AttributeError and changes nothing; a table without header cells raises IndexError, after stopping a running anchor at level 0 or more |
| AliasParser.RowsDoneValid | sgs/parser.py:90-91 | the rows of a table keep the attributes consistent |
| AliasParser.Anchor.constructor | sgs/parser.py:118-122 | the shared instance is created once, with no attributes yet |
| AliasParser.Anchor.Init | sgs/parser.py:115-129 | `Anchor(...)` re-initialises the one shared instance |
| AliasParser.HeroParser.constructor | sgs/parser.py:8-11 | a hero starts without a pending key, hit line, anchor attribute, title, image or version search, over the shared anchor |
| AliasParser.HeroParser.ClearAliasKey | sgs/parser.py:24-25 | `clear_alias_key` deletes the three attributes in turn, raising at the first missing one |
| AliasParser.HeroParser.AliasMatcher | sgs/parser.py:27-50 | `alias_matcher` moves the hero and the shared anchor to the state the matcher function gives, and raises TypeError, changing nothing, when the scan reaches a tuple alias |
| AliasParser.HeroParser.ParseHeader | sgs/parser.py:52-67 | the header loop ends in the state, flag and exception the header function gives |
| AliasParser.HeroParser.HeaderLine | sgs/parser.py:55-66 | one header line ends as the header step function gives |
| AliasParser.HeroParser.ParseModule | sgs/parser.py:69-109 | the module loop ends in the state, result and exception the module function gives |
| AliasParser.HeroParser.ModuleLine | sgs/parser.py:71-109 | one module line ends as the module step function gives |
| AliasParser.HeroParser.TextLine | sgs/parser.py:73-85 | a text line ends as the text step function gives |
| AliasParser.HeroParser.ParseRows | sgs/parser.py:90-91 | parsing the first cell of each row in turn ends in the state and exception the rows function gives, stopping at an empty row or the first error |
| AliasParser.HeroParser.ParseTable | sgs/parser.py:86-97 | the table branch, with its loop over the rows, ends as the table function gives |
| AliasParser.HeroParser.CheckVersion | sgs/parser.py:92-97 | the end of the table branch ends as the version function gives |
| AliasParser.HeroParser.Enter | sgs/parser.py:131-143 | entering the context ends as the entry function gives |
| AliasParser.HeroParser.Exit | sgs/parser.py:144-150 | leaving the context ends as the exit function gives |
| AliasParser.HeroParser.CrawlByName | sgs/hero.py:51-60 | the crawl loop of the older hero ends as the crawl function gives, for the blocks the crawl yields |

## Left out

- Concurrency: the Redis lock, the process pool, the worker queue and async scheduling are out. Each store call is one atomic step of a single caller.
- Redis key expiry (the 900-second TTL) is not modelled, and neither is the removal of a list key once its last element is popped. An emptied list stays as an empty list.
- sgs/role.py is not part of this model. The role values come from the enum in `biz/room.py`.
- `Room.rooms_queue` is kept as the set of room ids with a running game. The event centre's queue, which the source stores as the value, is not kept there.
- Randomness (`random.shuffle`, `sample`, `choice`) is taken as parameters: a permutation, a subset or an element chosen by the caller.
- MD5 is not modelled. `Record.r_key` is the text that would be digested, which keeps keys equal exactly when their inputs are.
- The user pickle load and dump in `UserMgr` are I/O and are left out. Neither `User.__get_state__` nor `User.__set_state__` is a pickle hook (pickle looks for `__getstate__` and `__setstate__`), so `UserMgr.dump` (`biz/user.py:76-79`) saves the users untrimmed. `Users.GetState` models what `__get_state__` computes when called; no modelled operation calls it. `__set_state__` is left out: it is never called, and its one-argument `__setattr__` call would fail.
- `Card.load` (`sgs/cards/card.py:51-93`) is left out: its pickle cache, the remote document fetch and the reflective `sub_cls_mapping`. The model takes the card table as an input and keeps only the id construction.
- `UserRole` keeps its user id, role, hero id, hp, hp_max, camp and gender. Its judge, equipment and own regions and its tag dictionary are out, because no modelled operation reads or writes them.
- The router's TEST testers are a set of accepting names, because what a tester computes is outside the router. Handlers are numbers whose calls are returned, not run, and the `ctx` a tester returns is not modelled.
- `GameRoundEvent` is an empty stub in the source, and there is no win condition. The cycle event therefore makes one pass. `print` and the card sending in the events become a log of visits.
- Image objects are values. Writing the author of a picture two heroes share is not seen by the other hero.
- `monarchs` and `all_heros` are `cached_property` values in the source, so they go stale after more heroes are added. The model computes them from the current heroes.
- The hp fallback inside `__getattribute__` is applied to reads. The walkers store the parsed hp values and do not route their own reads through it.
- HeroOutline.Load: mistletoe parsing and the write of `page_cache/md.json` are not modelled. The document comes in as its already-parsed top-level nodes.
- HeroOutline.Search: the `crawl_by_name` each found hero triggers is not part of the search result.
- The HP pattern's `\d` is read as ASCII digits. Python's `\d` also accepts other Unicode digits.
- AliasParser.PyInt: `int()` is modelled for an optional sign and ASCII digits only. Underscores between digits, surrounding white space and non-ASCII digits are out.
- HTML scraping is out: `crawl`, `recur_node`, the `baike_*` functions and the Baike anchors depend on requests and BeautifulSoup. So is `Font.md_format`, which builds a BeautifulSoup tag; the model takes its rendering as a parameter.
- `GeneralBlock.__iter__` is out: its `tee` makes a generator's contents re-iterable, and the model keeps contents as a sequence. `GeneralBlock.__str__`, `empty`, `UList.copy_from_block` and `Table.empty` are shown only through the block values the walkers build.
- Crawler.ListCollect: the source reuses one `lis` list for every `ul` it yields and clears it after each. A yielded `ul` that is read only after the generator has moved on would see later changes. The model gives each `ul` its own contents.
- CrawlerTable.TableLayout.IterChildren: the nested `thead`/`tbody`/`tr` blocks are values. The `cache_cnt` and `idx` the source writes onto a cell object are kept with the cell in the queue instead.
- HeroOutline and HeroRecord.Hero.SetImageAuthor: `sgs/heros/__init__.py:10` and `sgs/heros/hero.py:8` import `GeneralBlock`, `Text`, `UList` and `Img` from `sgs/heros/crawler.py`, which is not part of this model. The `Current` variant of the walker and the hero record assume those classes behave as the ones of `sgs/crawler.py`, which the model uses.
- CrawlerTable.IterFrom, CrawlerTable.PlaceCell and CrawlerTable.TableLayout.IterChildren: a cell's `colspan` and `rowspan` come in as integers. The source converts the attribute strings with `int(...)` (sgs/crawler.py:250, 257 and 261), and the ValueError a malformed attribute raises there is not modelled.
- LegacyHero.ToStr: the final `str(UList('ul', secs))` is not modelled. Its text uses the reprs of the nested objects. The method returns the sections instead.
- The alias table of the mixin (`alias_mapper`) is a parameter of the parser. The older hero's table is `AliasParser.LegacyAliases`; the table of the host in `sgs/heros/hero.py` is `AliasParser.HostAliases`, whose `position` alias is a tuple. Pairing that table with this matcher is an assumption: the host takes its parsers from `sgs/heros/parser.py`, which is not part of this model, and nothing modelled shows it mixing in `HeroParser` of `sgs/parser.py`. A repeated alias, which the dict would keep once, is not excluded.
- AliasParser.Matched: the parser follows the code as written, so a tuple alias raises TypeError (see Findings). On the older hero's table, which holds only strings, `AliasParser.IntendedAgrees` shows the written and the intended scans choose the same field.
- HeroOutline.MdKeys: the walker's `Current` variant has no md keys, which models `sgs/heros/hero.py` without a parser mixed in. `AliasParser` models the opposite case, on the assumption that the host mixes in `HeroParser` of `sgs/parser.py`; the host's own parsers come from `sgs/heros/parser.py`, which is not part of this model. The mixing itself is done by the `hero_parsers` metaclass, which is out (below).
- `set_title`, `set_image` and `set_image_author` are abstract in the mixin. The model uses the host behaviour of `sgs/heros/hero.py` for the image. `set_title` has no host in the source, so the model writes a title field.
- The `hero_parsers` metaclass that mixes parsers into `Hero` from the configuration is out. The module it reads parsers from (`sgs/heros/parser.py`) is not part of this model.
- `classproperty.__set_name__` only records the name. A `property_val` nested inside another `property_val` is not modelled.
- The chat platform, the HTTP facades, the robot adapter and the templates are out, because they are I/O glue.

## Findings

| source | as written | input that shows it | evidently intended | confidence | as-written member | corrected member |
|---|---|---|---|---|---|---|
| sgs/cards/region.py:38-39 | `push_down` computes `cards + self.un_cards`, where `cards` is the `*cards` tuple and `un_cards` a list | any call, e.g. `push_down(c)`: a tuple plus a list raises TypeError | the pushed cards go beneath the face-down pile, in argument order | not executed | CardRegion.PushDownAsWritten, CardRegion.PushDownAlwaysFails | CardRegion.PushedDown, CardRegion.CardHeap.PushDown |
| biz/user.py:14,31-32 | `r_time: datetime = datetime.now()` is evaluated once, when the class is defined, so every `Record` carries that time | two `add_record` calls in one process, any time apart: the second sees a zero gap and is refused | the record is stamped with the time of the call, so a record more than five minutes after the last is accepted | not executed | Users.AddRecordAsWritten, Users.AddRecordAsWrittenRefusesSecond | Users.User.AddRecord, Users.AddRecordAfterGap |
| sgs/cards/card.py:86-112 | `__str__` shows `card_id[1]`, but the ids of a two-piece entry repeat the colour key, e.g. `hh3` for the second piece | the card with id `hh3` renders as `[方块h …]` instead of showing its number 3 | the number after the key run is shown | not executed | Cards.Render, Cards.RenderShowsKeyForSecondPiece | Cards.RenderNumber, Cards.RenderNumberOfPiece |
| sgs/events/game_events.py:31-34 | `set_role_hero` calls `ur.set_hero(hero)`, a method `UserRole` does not define | any pick by a seated user raises AttributeError | the user's first seat takes the hero | not executed | Events.SetRoleHeroAsWritten, Events.SetRoleHeroAsWrittenFails | Events.SetHero, Events.SetHeroFirstMatch, Events.GameStartEvent.SetRoleHero |
| sgs/events/game_events.py:45-48 | `GameCycleEvent.each` prints `user_role.hero_name`, an attribute `UserRole` does not have | a cycle over any non-empty seat list raises AttributeError before the turn index moves | each turn is reported and the turn index advances | not executed | Events.TurnPassAsWritten, Events.TurnPassAsWrittenFails | Events.GameCycleEvent.Each, Events.EventCenter.SettleTurns |
| sgs/parser.py:43-44 | `alias in sline` tests each key of `alias_mapper`; if the host mixes in this `HeroParser` (an assumption: the host imports its parsers from `sgs/heros/parser.py`, which is not part of this model), the host's `position` field (`sgs/heros/hero.py:57`) has the tuple alias `('定位', '武将定位')`, and `tuple in str` raises TypeError | any line holding neither 性别 nor 势力 while no key is pending, e.g. `武将定位` | any member of the tuple occurring in the line selects the field | not executed | AliasParser.FirstAliasAt, AliasParser.HostTableRaises, AliasParser.HostPositionLineRaises | AliasParser.FirstAliasIntended, AliasParser.IntendedHostPosition |
