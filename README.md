# EcoWars match engine in Dafny

EcoWars is a two-player card duel. Each player has four statistics: GDP, stability, cash and happiness. Each player also has a hand, a deck, a discard pile and a board of ongoing industry and policy effects.

A match is one mutable record. It holds:
- the seated players;
- the turn order;
- the active player and an optional winner;
- the per-turn counters (cards played, attack used);
- an event log, newest first, capped at 40 entries.

The public operations are create a match, join, start a turn, play a card, attack and end the turn. Each one validates first and throws before it writes anything. Otherwise it:
- dispatches through a fifteen-entry card table;
- ticks ongoing effects;
- draws cards, refilling an empty deck from the shuffled discard;
- clamps statistics into range;
- checks for an economic victory (happiness 120) or a domination victory (opponent stability 0).

The engine exists twice:
- the browser copy, `src/state/gameEngine.ts`, whose decks are shuffled by a seeded mulberry32 shuffle (`src/utils/random.ts`);
- the server copy, `supabase/functions/_shared/gameEngine.ts`, which shuffles with an unseeded Fisher–Yates loop over `Math.random()` and runs an interleaved victory check with no pre-clamp.

The model covers both copies. An `Engine` value says which copy runs (`Client(mix, seeding)` or `Server(random)`) and which card catalog it deals from. Behaviour branches only where the copies differ: the shuffle and the victory check. The client's `seeding` is `ReseedEachRound`, the shuffle of `src/utils/random.ts` as it is written, or `OneGenerator`, the corrected shuffle described under Findings. Every engine-level property below holds for both.

## Layout

| module | file | contents |
|---|---|---|
| `Wrappers` | wrappers.dfy | `Option`, `Outcome` (pass or the error thrown), `Result` |
| `GameTypes` | game.dfy | the data model of `src/types/game.ts` and the game constants |
| `Random` | random.dfy | the client's seeded shuffle, as written and as intended (see Findings) |
| `ServerShuffle` | server_shuffle.dfy | the server's Fisher–Yates shuffle |
| `PlayerRules` | player_rules.dfy | player-level rules as functions |
| `MatchRules` | match_rules.dfy | match-level rules as functions, from the old world to the new one, and the invariant `Inv` |
| `PlayerLemmas`, `MatchLemmas` | player_lemmas.dfy, match_lemmas.dfy | what those rules guarantee |
| `PlayerEngine` | player_engine.dfy | the player-level helpers as imperative methods with loops |
| `GameEngine` | engine.dfy | class `Match`: the match record with its fields updated in place |

Player-level rules are clamping, the card table, ticking ongoing effects, drawing with a reshuffle, and deck generation.

Methods are proved equal to the functions in PlayerRules and MatchRules. A class method ensures `Snapshot() == MatchRules.Op(old(Snapshot()), ...)`. A failed call returns `Fail(error)` and leaves `Snapshot()` unchanged. The class predicate `Valid()` is `Inv` of the record: the constructor establishes it and every public method keeps it. The lemmas state what the TypeScript engine promises about those functions.

A `World` is the match together with two supplies:
- the next fresh identifier, standing for `nanoid` / `randomId`;
- how many numbers of the `Math.random()` stream have been used.

`now` is the value of `Date.now()` during one public call.

## Model

| member | source | states |
|---|---|---|
| GameTypes.StartingStatsInRange | src/types/game.ts:94-99 | the starting stats (10, 100, 10, 10) lie inside the clamp ranges |
| PlayerRules.Clamp | src/state/gameEngine.ts:395-403 | the clamped stats are in range (cash, gdp ≥ 0; stability in [0,150]; happiness in [0,120]), in-range stats are unchanged, stability ≤ 0 becomes 0, happiness ≥ 120 becomes 120 |
| PlayerRules.ClampPlayer | supabase/functions/_shared/gameEngine.ts:408-416 | clamping changes only the stats, puts them in range, and leaves an in-range player alone (server copy, same bounds) |
| PlayerLemmas.ClampIdempotent | src/state/gameEngine.ts:395-403 | clamping twice equals clamping once; the stats clamping leaves unchanged are exactly the in-range ones |
| PlayerRules.AddToBoard | src/state/gameEngine.ts:339-361 | `addIndustry`/`addPolicy` append one slot to the list its kind names, holding a duplicate of the card under fresh id n and an effect with fresh id n+1, the card's slug and the overrides; nothing else of the player changes |
| PlayerRules.HandlerFor | src/state/gameEngine.ts:23-102 | the card table: every card changes something; no card helps the opponent (its cash and happiness are untouched, its GDP and stability never rise); the one effect placed on the opponent is a policy with a duration |
| PlayerRules.Resolve | src/state/gameEngine.ts:23-102 | every handler touches only stats and boards, and the id supply never goes back |
| PlayerLemmas.ResolveOutcome | src/state/gameEngine.ts:23-102 | for each of the fifteen slugs, the exact stat changes to caster and target, or the one slot placed on the caster's or the target's board together with two minted ids |
| PlayerLemmas.PlacedSlotIsFreshDuplicate | src/state/gameEngine.ts:339-361 | a placed slot goes on the end of one list; it holds a duplicate of the card under the fresh id n, its effect has id n+1 and the card's slug, and the supply moves on by 2 |
| PlayerRules.TickOne | src/state/gameEngine.ts:301-329 | one tick: adds the present per-turn deltas; applies the cash modifier only while uses are left, flooring cash at 0 and counting down; lowers the opponent's GDP (floored at 0) only when there is an opponent; decrements a present duration; keeps the card |
| PlayerRules.MapTick | src/state/gameEngine.ts:300-329 | the map pass keeps the length and every slot's card, and only lowers the opponent's GDP, never below 0 |
| PlayerLemmas.MapTickAddsDeltas | src/state/gameEngine.ts:303-307 | after the map pass, the player's GDP, happiness and stability have grown by the sums of the slots' per-turn fields |
| PlayerLemmas.MapTickSlot | src/state/gameEngine.ts:300-329 | slot i after the map pass is `TickOne(slots[i], self, other).slot`: a slot's new state depends on that slot alone, not on the stats the earlier slots leave |
| PlayerRules.Survivors | src/state/gameEngine.ts:330-336 | the filter never lengthens the list |
| PlayerLemmas.SurvivorsAppend | src/state/gameEngine.ts:330-336 | filtering distributes over concatenation, so survivors keep their order |
| PlayerLemmas.SurvivorsExactly | src/state/gameEngine.ts:330-336 | a slot survives exactly when it was in the list and its duration is absent or positive |
| PlayerLemmas.NoDurationKept | src/state/gameEngine.ts:325-336 | a ticked effect without a duration is never dropped |
| PlayerRules.TickSlots | supabase/functions/_shared/gameEngine.ts:320-362 | `tickSlots`/`tickBoardSlots` leave the opponent with the same stats except a GDP that stays ≥ 0 |
| PlayerRules.ApplyBoardEffects | src/state/gameEngine.ts:290-293 | industries then policies tick; only the player's stats and board change, and only the opponent's GDP |
| PlayerLemmas.TaxCutFiresOnce | src/state/gameEngine.ts:28-35 | Tax Cut's first tick lowers cash by 2 (floored at 0) and adds 3 happiness; from then on the effect is a fixed point that adds only the happiness |
| PlayerLemmas.PriceControlsTwice | src/state/gameEngine.ts:71-80 | Price Controls lands on the target's policies, takes 3 GDP on exactly two ticks, survives the first and is dropped after the second |
| PlayerRules.ShuffleCards | src/state/gameEngine.ts:363-367 | the shuffle each copy runs (on the client `shuffle(list, now)` with the engine's seeding, on the server Fisher–Yates) returns a permutation of the same length and never moves the random stream backwards |
| PlayerRules.ClientShuffle | src/utils/random.ts:1-17 | the client's `shuffle(list, now)`, as written or with one generator, returns a permutation of the same length |
| PlayerLemmas.ClientDealDecidedByFirstIndex | src/state/gameEngine.ts:260-270 | on the client as written, two deals whose first shuffle draws pick the same index give the same deck, so at most 30 deck orders can be dealt |
| PlayerRules.Reshuffle | src/state/gameEngine.ts:363-367 | an empty discard changes nothing; otherwise the deck becomes a permutation of the discard, the discard is emptied, and nothing else changes |
| PlayerLemmas.ReshuffleConserves | src/state/gameEngine.ts:363-367 | reshuffling an empty deck keeps the multiset of hand, deck and discard |
| PlayerRules.MoveTop | src/state/gameEngine.ts:278-281 | `shift` then `push`: the hand gains the deck's first card at its end, the deck loses exactly that card and keeps the rest in order, and nothing else changes |
| PlayerLemmas.MoveTopConserves | src/state/gameEngine.ts:278-281 | moving the top card to the hand keeps every card |
| PlayerRules.DrawCards | src/state/gameEngine.ts:272-283 | drawing changes only hand, deck and discard |
| PlayerLemmas.DrawCardsConserves | src/state/gameEngine.ts:272-283 | drawing, with any reshuffle, keeps the multiset of hand, deck and discard |
| PlayerLemmas.DrawCardsCount | src/state/gameEngine.ts:272-283 | drawing `count` adds min(count, deck + discard) cards to the hand |
| PlayerLemmas.DrawCardsFromDeck | src/state/gameEngine.ts:272-283 | while the deck lasts, the first `count` deck cards move in order to the back of the hand and nothing is shuffled |
| PlayerLemmas.DrawStep | src/state/gameEngine.ts:273-281 | with cards in the deck, one loop iteration moves the top card and reshuffles nothing |
| PlayerRules.DrawToHandCap | src/state/gameEngine.ts:285-288 | a hand of five or more is left alone |
| PlayerLemmas.DrawToHandCapFills | src/state/gameEngine.ts:285-288 | a short hand is filled to five unless deck and discard run out, every card is kept, and a full hand is untouched |
| PlayerRules.CopiesNeeded | src/state/gameEngine.ts:262 | `Math.ceil(30 / catalog length)`: the least number of copies whose total reaches 30 |
| PlayerRules.Pool | src/state/gameEngine.ts:263-266 | the pool holds `copies` times the catalog's length |
| PlayerLemmas.PoolAt | src/state/gameEngine.ts:263-266 | position i of the pool holds catalog[i mod length] |
| PlayerLemmas.PoolSnoc | src/state/gameEngine.ts:264-265 | each loop iteration pushes one whole catalog onto the end |
| PlayerRules.Instantiate | src/state/gameEngine.ts:369-374 | the i-th definition becomes a card with the i-th fresh id |
| PlayerRules.DeckSample | src/state/gameEngine.ts:267 | the slice holds exactly 30 definitions |
| PlayerRules.GenerateDeck | supabase/functions/_shared/gameEngine.ts:288-297 | a generated deck has exactly 30 cards |
| PlayerLemmas.GenerateDeckContents | src/state/gameEngine.ts:261-270 | a generated deck has 30 cards with consecutive fresh ids, and its definitions are a permutation of the first 30 of the repeated catalog, where position i is catalog[i mod length] |
| PlayerRules.FreshPlayer | src/state/gameEngine.ts:112-123 | the player literal: its id, name and deck, the starting stats (which are in range), an empty hand, discard and board |
| PlayerRules.CreatePlayer | src/state/gameEngine.ts:104-127 | a new player has its id, name, the starting stats, an empty board and an empty discard |
| PlayerLemmas.CreatePlayerDeal | src/state/gameEngine.ts:109-126 | the opening hand is the first five cards of the generated deck, and the other 25 stay in the deck in order |
| MatchRules.FindOther | src/state/gameEngine.ts:384 | `find(id !== playerId)` returns some other id in the order, and nothing exactly when every id is the caller's |
| MatchRules.OpponentId | src/state/gameEngine.ts:383-387 | an opponent is a seated id in the turn order, different from the caller, and not empty (JavaScript truthiness) |
| MatchLemmas.OpponentIsOtherSeat | src/state/gameEngine.ts:383-387 | under the invariant, a lone player has no opponent; of two seats, each one's opponent is the other seat when that id is non-empty |
| MatchRules.FindCard | src/state/gameEngine.ts:204-206 | `findIndex` returns the first position holding the instance id, or -1 exactly when none does |
| MatchRules.IndexOf | src/state/gameEngine.ts:255 | `indexOf` returns the first position of the id, or -1 exactly when it is absent |
| MatchRules.RemoveAt | src/state/gameEngine.ts:218 | `splice(i, 1)` removes exactly that card: one shorter, and the multiset loses one copy of it |
| MatchRules.Log | src/state/gameEngine.ts:428-435 | the new entry is first, the older entries follow in order, at most 40 are kept, and nothing else changes |
| MatchRules.LogW | src/state/gameEngine.ts:428-435 | a log entry takes the next fresh id and uses exactly one |
| MatchRules.FirstEconomic | src/state/gameEngine.ts:410-416 | the economic pass names a player in the order with happiness ≥ 120, and names none exactly when nobody qualifies |
| MatchRules.FirstDomination | src/state/gameEngine.ts:418-425 | the domination pass names a player whose opponent's stability is ≤ 0, and names none exactly when nobody qualifies |
| MatchLemmas.FirstEconomicAt | src/state/gameEngine.ts:410-416 | the economic pass names the first qualifying player in seat order |
| MatchLemmas.ClientEconomicFirst | src/state/gameEngine.ts:410-425 | on the client, the first happy player wins economically whatever the stabilities: all happiness tests run before any domination test |
| MatchRules.ClientVerdict | src/state/gameEngine.ts:405-426 | a client verdict names a player in the turn order |
| MatchRules.ServerVerdict | supabase/functions/_shared/gameEngine.ts:418-433 | a server verdict names a player in the turn order |
| MatchLemmas.FirstDominationAt | src/state/gameEngine.ts:418-425 | the client's domination pass names the first seat in order whose opponent is beaten |
| MatchLemmas.ServerVerdictMeaning | supabase/functions/_shared/gameEngine.ts:418-433 | there is no server verdict exactly when every seat fails both tests; otherwise it names a seat whose predecessors all fail both, Economic only when that seat is happy, Domination only when it is not happy and its opponent is beaten |
| MatchLemmas.ServerVerdictAt | supabase/functions/_shared/gameEngine.ts:418-433 | the first seat in order that passes either test is named, by happiness when it is happy and by domination otherwise |
| MatchLemmas.ServerDominationFirst | supabase/functions/_shared/gameEngine.ts:420-431 | on the server, a first seat that dominates wins before a later seat with happiness 120 is looked at |
| MatchLemmas.CopiesDisagree | supabase/functions/_shared/gameEngine.ts:418-433 | from one concrete position, the client crowns the happy guest and the server crowns the dominating host |
| MatchRules.WinsEconomically | src/state/gameEngine.ts:410-411 | a winning player is seated, and a clamped winner sits exactly at 120 happiness |
| MatchRules.WinsByDomination | src/state/gameEngine.ts:418-420 | a dominating player is seated and has an opponent, and a clamped opponent sits exactly at stability 0 |
| MatchRules.ClampAll | src/state/gameEngine.ts:408 | `players.forEach(clampPlayer)` keeps the seats and clamps each player |
| MatchRules.Declare | src/state/gameEngine.ts:411-414 | the verdict's player becomes the winner and one entry is logged under the next fresh id; nothing else changes |
| MatchRules.Settle | src/state/gameEngine.ts:410-425 | no verdict changes nothing; a verdict records its player as the winner; only the winner and the log change |
| MatchRules.CheckVictory | src/state/gameEngine.ts:405-426 | with a truthy winner recorded, the victory check changes nothing; it only ever changes the players' stats, the winner and the log, and keeps the seats |
| MatchLemmas.CheckVictoryOutcome | src/state/gameEngine.ts:405-426 | with no truthy winner: if there is a verdict, its player becomes the winner and exactly one entry is logged; otherwise nothing changes. Only the winner and the log ever change, and the invariant is kept |
| MatchLemmas.ClampAllInRange | src/state/gameEngine.ts:408 | the pre-clamp of all players changes nothing when everyone is in range |
| MatchLemmas.DominationVerdict | src/state/gameEngine.ts:418-425 | with nobody at 120 happiness and exactly one player at stability 0, both copies name the other player the winner by domination |
| MatchRules.OtherStats | src/state/gameEngine.ts:178 | the opponent's stats are present exactly when an opponent is |
| MatchRules.TurnPlayer | src/state/gameEngine.ts:183-186 | the player's share of a turn start changes only stats, board and zones, ends in range, and lowers only the opponent's GDP, never below 0 |
| MatchLemmas.TurnPlayerDeals | src/state/gameEngine.ts:183-186 | a turn start keeps every card of the player and refills a short hand to five, as far as deck and discard allow |
| MatchLemmas.TurnPlayerPaysCash | src/state/gameEngine.ts:183 | with an empty board, a turn start adds exactly 5 cash and nothing else |
| MatchRules.StartTurn | src/state/gameEngine.ts:176-188 | an unseated id changes nothing; a seated one becomes active with counters (0, false), and only the players and the log change besides, keeping the seats |
| MatchLemmas.StartTurnOutcome | src/state/gameEngine.ts:176-188 | a seated player becomes active with counters reset to (0, false) and takes the player's share of the turn; seats, the order and the winner stay; one "turn" entry is logged |
| MatchLemmas.StartTurnSparesOthers | src/state/gameEngine.ts:184 | only the other player's GDP can change in a turn start, and it never goes below 0 |
| MatchLemmas.StartTurnKeepsInv | src/state/gameEngine.ts:176-188 | a turn start keeps the invariant |
| MatchLemmas.StartTurnPaysCash | src/state/gameEngine.ts:183 | with an empty board, the new active player gains exactly 5 cash |
| MatchRules.NextInTurn | src/state/gameEngine.ts:255-257 | there is a next id exactly when the turn order is non-empty, and it lies in the order |
| MatchLemmas.NextInTurnRotates | src/state/gameEngine.ts:255-257 | `(indexOf + 1) % length` names the other seat of two, or the same seat when alone |
| MatchRules.EndTurn | src/state/gameEngine.ts:253-259 | ending the turn fails exactly when the caller is not active, and the error is "not your turn" |
| MatchLemmas.EndTurnRotates | src/state/gameEngine.ts:253-259 | the active player hands the turn to the next seat with fresh counters and the invariant kept; anyone else is refused |
| MatchRules.PlayEffects | src/state/gameEngine.ts:216-225 | the writes of a card play keep the set of seated ids |
| MatchRules.PlayCard | src/state/gameEngine.ts:190-227 | a caller who is not active is refused with "not your turn"; a successful play had an opponent and was below the card limit, raises the card counter by one and keeps the seats, the order and the active player |
| MatchLemmas.PlayCardChecks | src/state/gameEngine.ts:195-214 | each `playCard` error is thrown exactly when all earlier checks pass and its own fails. The order is turn, opponent, card limit 2, card in hand, cash. The call succeeds exactly when all pass |
| MatchLemmas.PlayEffectsShape | src/state/gameEngine.ts:216-223 | only the two players, the log and the counters change; the card counter rises by 1; one entry naming card, caster and target is logged |
| MatchLemmas.PlayEffectsZones | src/state/gameEngine.ts:218-225 | the card leaves the hand for the end of the discard, the caster keeps every card, the target's zones are untouched, and both end in range |
| MatchLemmas.PlayEffectsStats | src/state/gameEngine.ts:216-225 | a stat card adds its deltas after payment and clamps; a board card leaves the paid stats and appends its slot to the right board; 1 or 3 ids are minted |
| MatchLemmas.PlayEffectsKeepInv | src/state/gameEngine.ts:200-225 | below the card limit, a card play's writes keep the invariant, so at most 2 cards are played per turn |
| MatchLemmas.PlayCardUnfolds | src/state/gameEngine.ts:190-227 | a playable card runs the writes, then the victory check |
| MatchLemmas.PlayCardKeepsInv | src/state/gameEngine.ts:190-227 | a successful card play keeps the invariant on either copy |
| MatchLemmas.PlayCardOutcome | src/state/gameEngine.ts:216-226 | a successful play leaves the players and counters its writes produce; the winner stays if set, or otherwise becomes the verdict on the new position |
| MatchRules.Attack | src/state/gameEngine.ts:229-251 | a caller who is not active is refused with "not your turn"; a successful attack had an opponent and an unused attack, uses it up and keeps the card counter, the seats, the order and the active player |
| MatchLemmas.AttackChecks | src/state/gameEngine.ts:230-241 | each `attack` error is thrown exactly when earlier checks pass and its own fails. The order is turn, opponent, attack unused, GDP > 0. The call succeeds exactly when all pass |
| MatchRules.AttackEffects | src/state/gameEngine.ts:243-249 | the writes of an attack keep the set of seated ids |
| MatchLemmas.AttackEffectsOutcome | src/state/gameEngine.ts:243-249 | the opponent's stability becomes max(0, stability − attacker's GDP); nothing else of either player changes; the attack is used up; one entry names the attacker and the damage; the invariant is kept |
| MatchLemmas.AttackOutcome | src/state/gameEngine.ts:229-251 | a successful attack keeps the invariant and leaves the players its writes produce; the winner stays if set, or otherwise becomes the verdict |
| MatchLemmas.AttackHits | src/state/gameEngine.test.ts:71-75 | a successful attack lowers the opponent's stability by the attacker's GDP, floored at 0, leaves the attacker as it was, and uses up the attack |
| MatchLemmas.AttackDominates | src/state/gameEngine.test.ts:76-81 | an attack for at least the opponent's stability wins by domination on either copy when nobody had won or is at 120 happiness |
| MatchRules.AddPlayer | src/state/gameEngine.ts:155-174 | a seated id is a no-op; otherwise the call fails exactly when two players are seated, and the error is "match full" |
| MatchRules.Seated | src/state/gameEngine.ts:169-171 | the joining player is stored under its id and appended to the turn order, 30 ids are used, and nothing else changes |
| MatchLemmas.SeatCount | src/state/gameEngine.ts:165 | under the invariant, the number of seated players is the length of the turn order |
| MatchLemmas.AddPlayerOutcome | src/state/gameEngine.ts:155-174 | a seated id changes nothing; a full match is refused; otherwise the new player is seated and appended to the order, one entry is logged, and 31 ids are used |
| MatchLemmas.SeatSecondKeepsInv | src/state/gameEngine.ts:170-171 | seating a second distinct in-range player keeps the invariant |
| MatchLemmas.AddPlayerKeepsInv | src/state/gameEngine.ts:155-174 | joining keeps the invariant: no duplicate seats, at most two |
| MatchLemmas.JoinedPlayerIsFresh | src/state/gameEngine.ts:169 | the joining player has starting stats, an empty board and discard, 5 cards in hand and 25 in the deck |
| MatchRules.Inv | src/state/gameEngine.ts:155-174 | the invariant of a reachable match (one or two distinct seats in turn order, clamped stats, a seated active player) implies at least one player and an active player in the order |
| MatchRules.Hosted | src/state/gameEngine.ts:134-150 | before the first turn only the host is seated and in the order, with starting stats, no winner, one log entry, and 31 ids used |
| MatchRules.CreateMatch | src/state/gameEngine.ts:129-153 | a new match has the given id, only the host seated and in the order, the host active with fresh counters, and no winner |
| MatchLemmas.HostedOutcome | src/state/gameEngine.ts:134-150 | before the first turn the host sits alone, with no opponent, under a one-entry "created" log |
| MatchLemmas.CreateMatchOutcome | src/state/gameEngine.ts:129-153 | a new match has the host alone and active, with no winner and fresh counters. The host has 15 cash and 5 cards in hand. The log is "turn" then "created". The invariant holds |
| MatchLemmas.WinnerStays | src/state/gameEngine.ts:406 | once a truthy winner is recorded, no operation changes it |
| MatchLemmas.InflationSpikeHits | src/state/gameEngine.test.ts:52-59 | Inflation Spike lowers the opponent's stability by exactly 10, floored at 0 |
| MatchLemmas.BuildFactoryBuilds | src/state/gameEngine.test.ts:38-45 | Build Factory adds one industry worth 10 GDP a turn and costs the card's price |
| MatchLemmas.FactoryPaysNextTurn | src/state/gameEngine.test.ts:47-49 | a lone factory raises GDP by exactly 10 at the owner's next turn start |
| MatchLemmas.TourismBoostWins | src/state/gameEngine.test.ts:61-69 | Tourism Boost played by the first seat from 114 happiness or more wins economically on either copy: happiness is clamped to 120 and still counts |
| MatchLemmas.OrderSeated | src/state/gameEngine.ts:170-171 | under the invariant every id in the turn order is seated |
| Random.Index | src/utils/random.ts:8 | `Math.floor(u * currentIndex)` is an index below currentIndex, so every swap is in bounds |
| Random.Mulberry32 | src/utils/random.ts:19-22 | a fresh generator seeded with any fraction in [0, 1) starts from state 0 and returns `mix(0x6d2b79f5)` |
| Random.IndexIsFloor | src/utils/random.ts:8 | Index is exactly the floor of u × n |
| Random.ToInt32 | src/utils/random.ts:21 | the integer conversion of line 21 gives a signed 32-bit integer, keeps an integer already in range, and sends any fraction in [0, 1) to 0 |
| Random.Wrap32 | src/utils/random.ts:21-22 | the 32-bit wrap of `a = (a + 0x6d2b79f5)` lands in the signed 32-bit range and leaves values already there alone |
| Random.WrapAddition | src/utils/random.ts:21-22 | wrapping before adding the increment changes nothing |
| Random.Swap | src/utils/random.ts:10-13 | the destructuring swap exchanges positions i and j |
| Random.SwapPermutes | src/utils/random.ts:10-13 | a swap is a permutation that fixes every other position |
| Random.SwapElements | src/utils/random.ts:10-13 | the in-place array swap computes Swap |
| Random.ShuffleAsWritten | src/utils/random.ts:1-17 | the written shuffle returns a same-length permutation, determined by the list and the seed alone |
| Random.SeededShuffle | src/utils/random.ts:6-14 | the written rounds keep the length (that they permute is SeededShufflePermutes) |
| Random.SeededShufflePermutes | src/utils/random.ts:6-14 | every written round only swaps, so the result is a permutation |
| Random.SeededRound | src/utils/random.ts:7-13 | one written round: re-seed, draw an index below currentIndex, swap it with the last unsettled position |
| Random.ReseedFromUnit | src/utils/random.ts:7 | re-seeding with a number in [0, 1) truncates it to 0, so the generator always starts from the same state |
| Random.SeededDrawsCollapse | src/utils/random.ts:7 | as written, every draw after the first is the same number, whatever the seed |
| Random.SeededRoundsIgnoreSeed | src/utils/random.ts:7 | after the first round, the remaining rounds do not depend on the seed |
| Random.SeededShuffleDecidedByFirstIndex | src/utils/random.ts:1-17 | as written, two seeds whose first index agrees give the same order, so there are at most n outcomes |
| Random.SameFirstIndexSameShuffle | src/utils/random.ts:6-14 | two seeds whose first draws agree on the index run identical rounds |
| Random.StatefulRound | src/utils/random.ts:19-25 | one round of the intended shuffle advances the generator state once |
| Random.Shuffled | src/utils/random.ts:1-17 | the intended shuffle keeps the length |
| Random.Shuffle | src/utils/random.ts:1-17 | the intended shuffle, with one generator created from the seed, returns a same-length permutation determined by list and seed |
| Random.ShuffledPermutes | src/utils/random.ts:1-17 | the intended shuffle is a permutation |
| Random.GenStateLift | src/utils/random.ts:21-22 | the k-th state is the seed advanced by k+1 increments, wrapped once |
| Random.OddFactorCancels | src/utils/random.ts:22 | the increment 0x6d2b79f5 is odd, so it is invertible modulo 2^32 |
| Random.GenStatesDistinct | src/utils/random.ts:19-22 | with one generator, the mixed states never repeat within 2^32 calls |
| ServerShuffle.FisherYates | supabase/functions/_shared/gameEngine.ts:455-462 | the server shuffle keeps the length (that it permutes is FisherYatesPermutes) |
| ServerShuffle.FisherYatesRounds | supabase/functions/_shared/gameEngine.ts:457-460 | the loop keeps the length |
| ServerShuffle.FisherYatesRound | supabase/functions/_shared/gameEngine.ts:457-460 | one round swaps position i with j = floor(random × (i + 1)) and uses one number |
| ServerShuffle.Shuffle | supabase/functions/_shared/gameEngine.ts:455-462 | the server shuffle copies its input and returns a same-length permutation, using exactly length − 1 random numbers |
| ServerShuffle.FisherYatesPermutes | supabase/functions/_shared/gameEngine.ts:455-462 | the server shuffle is a permutation of its input |
| PlayerEngine.ShuffleCards | src/state/gameEngine.ts:268 | the engine's shuffle call computes PlayerRules.ShuffleCards: on the client the written `ShuffleAsWritten` or the corrected `Shuffle`, seeded by the time; on the server the Fisher–Yates loop over `Math.random()` |
| PlayerEngine.Reshuffle | src/state/gameEngine.ts:363-367 | the imperative reshuffle computes PlayerRules.Reshuffle |
| PlayerEngine.DrawCards | src/state/gameEngine.ts:272-283 | the `for` loop, with `break` when deck and discard are empty, computes PlayerRules.DrawCards |
| PlayerEngine.AddPerTurn | src/state/gameEngine.ts:303-307 | only present, non-zero per-turn deltas are added |
| PlayerEngine.TickSlot | src/state/gameEngine.ts:301-328 | the map callback computes TickOne |
| PlayerEngine.TickBoardSlots | src/state/gameEngine.ts:295-337 | the map-then-filter loops compute TickSlots |
| PlayerEngine.ApplyBoardEffects | src/state/gameEngine.ts:290-293 | industries then policies, computing PlayerRules.ApplyBoardEffects |
| PlayerEngine.BuildPool | src/state/gameEngine.ts:263-266 | the push loop builds Pool |
| PlayerEngine.InstantiateAll | src/state/gameEngine.ts:269 | the `map(instantiateCard)` loop computes Instantiate |
| PlayerEngine.GenerateDeck | src/state/gameEngine.ts:261-270 | generating a deck computes PlayerRules.GenerateDeck |
| PlayerEngine.CreatePlayer | src/state/gameEngine.ts:104-127 | creating a player computes PlayerRules.CreatePlayer |
| GameEngine.Match.Valid | src/state/gameEngine.ts:129-174 | the match record satisfies Inv, so every id in the turn order is seated; the constructor establishes it and every public method keeps it |
| GameEngine.Match.constructor | src/state/gameEngine.ts:129-153 | the new match's fields are CreateMatch: the host seated, creation logged, the host's turn started |
| GameEngine.Match.Log | src/state/gameEngine.ts:428-435 | `unshift` then `slice(0, 40)` on the field computes LogW |
| GameEngine.Match.Declare | src/state/gameEngine.ts:411-414 | the winner's id is recorded, then the victory entry is logged |
| GameEngine.Match.CheckVictory | src/state/gameEngine.ts:405-426 | the in-place check computes MatchRules.CheckVictory for the engine's copy |
| GameEngine.ClientSearch | src/state/gameEngine.ts:410-425 | the two `for` loops compute ClientVerdict |
| GameEngine.ServerSearch | supabase/functions/_shared/gameEngine.ts:420-432 | the single interleaved loop computes ServerVerdict |
| GameEngine.TakeTurn | src/state/gameEngine.ts:183-186 | cash, board tick, hand refill and clamp compute TurnPlayer |
| GameEngine.Match.StartTurn | src/state/gameEngine.ts:176-188 | the in-place turn start computes MatchRules.StartTurn |
| GameEngine.Match.EndTurn | src/state/gameEngine.ts:253-259 | a refused call returns the error with nothing changed; otherwise the fields become MatchRules.EndTurn's world |
| GameEngine.Match.PlayCard | src/state/gameEngine.ts:190-227 | a refused play returns the error with nothing changed; otherwise the fields become MatchRules.PlayCard's world |
| GameEngine.Match.ApplyPlay | src/state/gameEngine.ts:216-225 | the in-place writes of a card play compute PlayEffects |
| GameEngine.Match.Attack | src/state/gameEngine.ts:229-251 | a refused attack returns the error with nothing changed; otherwise the fields become MatchRules.Attack's world |
| GameEngine.Match.AddPlayer | src/state/gameEngine.ts:155-174 | a refused join returns "match full" with nothing changed; otherwise the fields become MatchRules.AddPlayer's world |
| GameEngine.Match.Seat | src/state/gameEngine.ts:169-172 | dealing, seating, appending to the order and logging compute a successful AddPlayer |
| GameEngine.Match.Place | src/state/gameEngine.ts:170-171 | the player is stored under its id, its id is pushed onto the turn order, the supplies move on, and no other field changes |

The server's `createMatchState`, `addPlayerToMatch`, `startTurn`, `playCard`, `attack`, `endTurn`, `drawCards`, `tickSlots`, `clampPlayer` and `log` (`supabase/functions/_shared/gameEngine.ts:180-271, 299-442`) do what the client's do, apart from the wording of messages and errors. They are modelled by the same members. The copies differ in the server's `checkVictory` (`ServerVerdict`, `ServerSearch`) and, through `PlayerRules.ShuffleCards`, in `shuffle` and `generateDeck`.

## Left out

- Aliasing: a player is a value inside the `players` map, not a shared object. Two names for the same player object cannot be expressed.
- Log messages are tokens that carry the names and numbers the texts mention. Their wording, and the wording of thrown errors, is not modelled.
- Identifiers from `nanoid` and `randomId` are modelled as a counter of fresh natural numbers. Their string form and the odds of a collision are left out.
- `Date.now()` is a parameter `now`, one value per public call. The client's default seed is that same `now`.
- mulberry32's bit mixing after `a = (a + 0x6d2b79f5) | 0` and its final division are an oracle `mix` from the 32-bit state to [0, 1). `Math.random()` is a stream `random` of numbers in [0, 1).
- Numbers are unbounded integers. JavaScript floats, NaN and fractional stats do not occur in the model, and neither do fractional or non-finite seeds passed to `shuffle`.
- The card catalog and its costs (`data/cards.json`) are not part of this model. The catalog is a parameter and must not be empty: with an empty catalog, `generateDeck` asks for infinitely many copies and never returns.
- `GAME_CONSTANTS.attackCooldown` and `GAME_CONSTANTS.deckSize` are never read by either engine and are not modelled.
- Players are visited in turn order, which is insertion order. JavaScript lists integer-like keys first in `Object.values`, and that quirk is not modelled.
- GameEngine.Match.CheckVictory: requires every id in the turn order to be seated. `checkVictory` visits `Object.values(players)`, which is the same list under the invariant `Inv`. `Valid()` implies this requirement.
- GameEngine.Match.PlayCard: requires every id in the turn order to be seated, because it ends in CheckVictory. `Valid()` implies this.
- GameEngine.Match.Attack: requires every id in the turn order to be seated, for the same reason.
- GameEngine.Match.AddPlayer: requires a non-empty catalog. So do GameEngine.Match.constructor and PlayerEngine.CreatePlayer.
- The match-actions dispatcher, the realtime and persistence layers, the practice bot and the user interface only call the engine and are not part of this model.

## Findings

| source | as written | input that shows it | evidently intended | confidence | as-written member | corrected member |
|---|---|---|---|---|---|---|
| src/utils/random.ts:7 | each round builds a fresh generator, seeded with the previous round's result in [0, 1); the ToInt32 conversion at line 21 truncates that seed to 0, so every draw after the first is `mix(0x6d2b79f5)` | any list of length ≥ 2 and any seed: the rounds after the first draw the same number. Two seeds whose first index agrees give the same order, so a 30-card deck has at most 30 orders | one generator created from the seed, whose state advances by 0x6d2b79f5 on every call and does not repeat within 2^32 calls | not executed | Random.ShuffleAsWritten, Random.SeededDrawsCollapse, Random.SeededShuffleDecidedByFirstIndex | Random.Shuffle, Random.Shuffled, Random.GenStatesDistinct |

The engine's client copy runs either shuffle. With `ReseedEachRound` it deals and reshuffles with the written `Random.SeededShuffle`, as the program does, and `PlayerLemmas.ClientDealDecidedByFirstIndex` carries the finding to dealt decks. With `OneGenerator` it uses the corrected `Random.Shuffled`.
