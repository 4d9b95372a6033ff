/**
 * The player-level rules shared by both engine copies: clamping, the card-effect
 * table, ongoing board effects, drawing with a discard reshuffle, and deck building.
 *
 * Every function here is the specification of one helper of the engines; the
 * imperative methods in modules PlayerEngine and GameEngine are proved equal to them.
 */
module PlayerRules {
  import opened Wrappers
  import opened GameTypes
  import Random
  import ServerShuffle

  /**
   * How the browser copy's seeded shuffle draws: as the program is written, re-seeding a
   * fresh generator from each round's result, or with one generator whose state advances.
   */
  datatype SeedMode = ReseedEachRound | OneGenerator

  /** Which copy of the engine runs, together with the randomness it shuffles with. */
  datatype Copy =
      /**
       * The browser copy: seeded mulberry32 shuffles; `mix` is the generator's output
       * stage and `seeding` says which way the shuffle draws.
       */
    | Client(mix: int -> Random.Unit, seeding: SeedMode)
      /** The server copy: unseeded shuffles drawing from the `Math.random()` stream. */
    | Server(random: nat -> Random.Unit)

  /** An engine: which copy, and the card catalog it deals from. */
  datatype Engine = Engine(copy: Copy, catalog: seq<CardDefinition>)

  /** A value computed together with the new position of the `Math.random()` stream. */
  datatype Drawn<T> = Drawn(value: T, draws: nat)

  // ---------------------------------------------------------------------------
  // Stats
  // ---------------------------------------------------------------------------

  function Max(a: int, b: int): int { if a >= b then a else b }
  function Min(a: int, b: int): int { if a <= b then a else b }

  /** `clampPlayer` on the statistics alone. */
  function Clamp(s: Stats): (r: Stats)
    ensures InRange(r)
    ensures InRange(s) ==> r == s
    ensures s.stability <= 0 ==> r.stability == 0
    ensures s.happiness >= VictoryHappiness ==> r.happiness == VictoryHappiness
  {
    Stats(
      Max(0, s.gdp),
      Max(0, Min(StabilityCap, s.stability)),
      Max(0, s.cash),
      Max(0, Min(VictoryHappiness, s.happiness)))
  }

  /** `clampPlayer`: the statistics move into range and nothing else changes. */
  function ClampPlayer(p: PlayerState): (r: PlayerState)
    ensures r == p.(stats := r.stats) && InRange(r.stats)
    ensures InRange(p.stats) ==> r == p
  {
    p.(stats := Clamp(p.stats))
  }

  /** Component-wise addition of a change to the statistics. */
  function Plus(s: Stats, d: Stats): Stats
  {
    Stats(s.gdp + d.gdp, s.stability + d.stability, s.cash + d.cash, s.happiness + d.happiness)
  }

  const NoChange: Stats := Stats(0, 0, 0, 0)

  // ---------------------------------------------------------------------------
  // Board slots
  // ---------------------------------------------------------------------------

  /** The optional fields a handler spreads over a new effect (`overrides` in `addIndustry` and `addPolicy`). */
  datatype Overrides = Overrides(
    gdpPerTurn: Option<int>,
    happinessPerTurn: Option<int>,
    stabilityPerTurn: Option<int>,
    cashNextTurnModifier: Option<int>,
    cashModifierUsesLeft: Option<int>,
    opponentIndustryGdpModifier: Option<int>,
    duration: Option<int>)

  const NoOverrides: Overrides := Overrides(None, None, None, None, None, None, None)

  /**
   * `addIndustry` / `addPolicy`: append a slot holding a duplicate of the card (fresh
   * instance id `nextId`) and a new effect (fresh id `nextId + 1`) to the list `kind`
   * names. The two ids are minted in this order; the caller advances the supply by 2.
   */
  function AddToBoard(p: PlayerState, card: CardInstance, kind: EffectKind, o: Overrides, nextId: Ident): (r: PlayerState)
    ensures r == p.(board := r.board)
    ensures var slot := BoardSlot(CardInstance(card.def, nextId), OngoingEffect(
        nextId + 1, kind, card.def.slug, o.gdpPerTurn, o.happinessPerTurn, o.stabilityPerTurn,
        o.cashNextTurnModifier, o.cashModifierUsesLeft, o.opponentIndustryGdpModifier, o.duration));
      if kind == IndustryEffect
      then r.board == Board(p.board.industries + [slot], p.board.policies)
      else r.board == Board(p.board.industries, p.board.policies + [slot])
  {
    var slot := BoardSlot(CardInstance(card.def, nextId), OngoingEffect(
      nextId + 1, kind, card.def.slug, o.gdpPerTurn, o.happinessPerTurn, o.stabilityPerTurn,
      o.cashNextTurnModifier, o.cashModifierUsesLeft, o.opponentIndustryGdpModifier, o.duration));
    match kind
    case IndustryEffect => p.(board := p.board.(industries := p.board.industries + [slot]))
    case PolicyEffect => p.(board := p.board.(policies := p.board.policies + [slot]))
  }

  // ---------------------------------------------------------------------------
  // The card table
  // ---------------------------------------------------------------------------

  /** What a card's handler does: adjust both players' stats, or place an ongoing effect. */
  datatype Handler =
    | Adjust(caster: Stats, target: Stats)
    | Place(onTarget: bool, kind: EffectKind, overrides: Overrides)

  /**
   * `effectHandlers`: total over the fifteen slugs. Every card does something; a card
   * never helps the opponent; the one effect placed on the opponent is a policy that
   * expires.
   */
  function HandlerFor(slug: CardSlug): (h: Handler)
    ensures h.Adjust? ==> h.caster != NoChange || h.target != NoChange
    ensures h.Adjust? ==> h.target.cash == 0 && h.target.happiness == 0 && h.target.gdp <= 0 && h.target.stability <= 0
    ensures h.Place? ==> h.overrides != NoOverrides
    ensures h.Place? && h.onTarget ==> h.kind == PolicyEffect && h.overrides.duration.Some?
  {
    match slug
    case BuildFactory => Place(false, IndustryEffect, NoOverrides.(gdpPerTurn := Some(10)))
    case TaxCut => Place(false, PolicyEffect, NoOverrides.(
        happinessPerTurn := Some(3), cashNextTurnModifier := Some(-2), cashModifierUsesLeft := Some(1)))
    case TradeDeal => Adjust(NoChange.(gdp := 5, cash := 5), NoChange)
    case InflationSpike => Adjust(NoChange, NoChange.(stability := -10))
    case GreenEnergy => Adjust(NoChange.(gdp := 8, happiness := 3), NoChange)
    case HealthProgram => Adjust(NoChange.(stability := 10), NoChange)
    case TechnologyBoom => Place(false, IndustryEffect, NoOverrides.(gdpPerTurn := Some(12), happinessPerTurn := Some(2)))
    case Recession => Adjust(NoChange.(gdp := -5, happiness := 3), NoChange.(gdp := -5))
    case TourismBoost => Adjust(NoChange.(happiness := 6), NoChange)
    case PriceControls => Place(true, PolicyEffect, NoOverrides.(gdpPerTurn := Some(-3), duration := Some(2)))
    case NaturalDisaster => Adjust(NoChange, NoChange.(stability := -15))
    case EducationReform => Place(false, PolicyEffect, NoOverrides.(gdpPerTurn := Some(2), happinessPerTurn := Some(2)))
    case SmallBusinessGrant => Place(false, IndustryEffect, NoOverrides.(gdpPerTurn := Some(5)))
    case Strike => Adjust(NoChange, NoChange.(gdp := -5))
    case HappinessFestival => Adjust(NoChange.(happiness := 8, stability := 5), NoChange)
  }

  datatype Resolved = Resolved(caster: PlayerState, target: PlayerState, nextId: Ident)

  /**
   * Run a card's handler on the caster and the target. Handlers touch only stats and
   * boards; a placement mints two ids.
   */
  function Resolve(card: CardInstance, caster: PlayerState, target: PlayerState, nextId: Ident): (r: Resolved)
    ensures r.caster == caster.(stats := r.caster.stats, board := r.caster.board)
    ensures r.target == target.(stats := r.target.stats, board := r.target.board)
    ensures r.nextId >= nextId
  {
    match HandlerFor(card.def.slug)
    case Adjust(dc, dt) =>
      Resolved(caster.(stats := Plus(caster.stats, dc)), target.(stats := Plus(target.stats, dt)), nextId)
    case Place(onTarget, kind, o) =>
      if onTarget then Resolved(caster, AddToBoard(target, card, kind, o, nextId), nextId + 2)
      else Resolved(AddToBoard(caster, card, kind, o, nextId), target, nextId + 2)
  }

  // ---------------------------------------------------------------------------
  // Ticking ongoing effects
  // ---------------------------------------------------------------------------

  /** An optional delta as a number: an absent (or zero) field adds nothing. */
  function Num(o: Option<int>): int { if o.Some? then o.value else 0 }

  /**
   * The opponent's stats before and after ticking: present in both or neither, only
   * GDP changes, and a non-negative GDP stays non-negative.
   */
  predicate OnlyGdpFloored(before: Option<Stats>, after: Option<Stats>)
  {
    && after.Some? == before.Some?
    && (before.Some? ==>
      && after.value == before.value.(gdp := after.value.gdp)
      && (before.value.gdp >= 0 ==> after.value.gdp >= 0))
  }

  /** One slot after its tick, with both players' stats after it. */
  datatype TickedSlot = TickedSlot(slot: BoardSlot, self: Stats, other: Option<Stats>)

  /** Whether the cash modifier fires: it is set and has uses left. */
  predicate CashModifierFires(e: OngoingEffect)
  {
    e.cashNextTurnModifier.Some? && e.cashModifierUsesLeft.Some? && e.cashModifierUsesLeft.value > 0
  }

  /** Whether the opponent modifier fires: it is set, non-zero, and there is an opponent. */
  predicate OpponentModifierFires(e: OngoingEffect, other: Option<Stats>)
  {
    e.opponentIndustryGdpModifier.Some? && e.opponentIndustryGdpModifier.value != 0 && other.Some?
  }

  /** The body of the `map` callback in `tickBoardSlots`, for one slot. */
  function TickOne(slot: BoardSlot, self: Stats, other: Option<Stats>): (r: TickedSlot)
    ensures r.slot.card == slot.card
    ensures r.slot.effect == slot.effect.(
      cashModifierUsesLeft := r.slot.effect.cashModifierUsesLeft, duration := r.slot.effect.duration)
    ensures OnlyGdpFloored(other, r.other)
    ensures r.self.gdp == self.gdp + Num(slot.effect.gdpPerTurn)
    ensures r.self.happiness == self.happiness + Num(slot.effect.happinessPerTurn)
    ensures r.self.stability == self.stability + Num(slot.effect.stabilityPerTurn)
    ensures CashModifierFires(slot.effect) ==>
      r.self.cash == Max(0, self.cash + slot.effect.cashNextTurnModifier.value)
      && r.slot.effect.cashModifierUsesLeft == Some(slot.effect.cashModifierUsesLeft.value - 1)
    ensures !CashModifierFires(slot.effect) ==>
      r.self.cash == self.cash && r.slot.effect.cashModifierUsesLeft == slot.effect.cashModifierUsesLeft
    ensures OpponentModifierFires(slot.effect, other) ==>
      r.other == Some(other.value.(gdp := Max(0, other.value.gdp + slot.effect.opponentIndustryGdpModifier.value)))
    ensures !OpponentModifierFires(slot.effect, other) ==> r.other == other
    ensures slot.effect.duration.Some? ==> r.slot.effect.duration == Some(slot.effect.duration.value - 1)
    ensures slot.effect.duration.None? ==> r.slot.effect.duration.None?
  {
    var e := slot.effect;
    var s1 := self.(gdp := self.gdp + Num(e.gdpPerTurn));
    var s2 := s1.(happiness := s1.happiness + Num(e.happinessPerTurn));
    var s3 := s2.(stability := s2.stability + Num(e.stabilityPerTurn));
    var fires := CashModifierFires(e);
    var s4 := if fires then s3.(cash := Max(0, s3.cash + e.cashNextTurnModifier.value)) else s3;
    var uses := if fires then Some(e.cashModifierUsesLeft.value - 1) else e.cashModifierUsesLeft;
    var other' := if OpponentModifierFires(e, other)
      then Some(other.value.(gdp := Max(0, other.value.gdp + e.opponentIndustryGdpModifier.value)))
      else other;
    var duration := if e.duration.Some? then Some(e.duration.value - 1) else None;
    TickedSlot(slot.(effect := e.(cashModifierUsesLeft := uses, duration := duration)), s4, other')
  }

  /** A list of slots after the `map` pass, with the stats it leaves. */
  datatype Ticked = Ticked(slots: seq<BoardSlot>, self: Stats, other: Option<Stats>)

  /** The `map` pass of `tickBoardSlots`: every slot ticks once, in list order. */
  function MapTick(slots: seq<BoardSlot>, self: Stats, other: Option<Stats>): (r: Ticked)
    ensures |r.slots| == |slots|
    ensures forall i :: 0 <= i < |slots| ==> r.slots[i].card == slots[i].card
    ensures OnlyGdpFloored(other, r.other)
  {
    if |slots| == 0 then Ticked([], self, other)
    else
      var t := MapTick(slots[..|slots| - 1], self, other);
      var one := TickOne(slots[|slots| - 1], t.self, t.other);
      Ticked(t.slots + [one.slot], one.self, one.other)
  }

  /** The `filter` predicate: a slot stays unless its duration is set and has run out. */
  predicate Survives(slot: BoardSlot)
  {
    !(slot.effect.duration.Some? && slot.effect.duration.value <= 0)
  }

  /** The `filter` pass: the surviving slots, in their original order. */
  function Survivors(slots: seq<BoardSlot>): (r: seq<BoardSlot>)
    ensures |r| <= |slots|
  {
    if |slots| == 0 then []
    else Survivors(slots[..|slots| - 1]) + (if Survives(slots[|slots| - 1]) then [slots[|slots| - 1]] else [])
  }

  /** `tickBoardSlots` (client) / `tickSlots` (server): map, then filter. */
  function TickSlots(slots: seq<BoardSlot>, self: Stats, other: Option<Stats>): (r: Ticked)
    ensures OnlyGdpFloored(other, r.other)
  {
    var t := MapTick(slots, self, other);
    Ticked(Survivors(t.slots), t.self, t.other)
  }

  /** A player after `applyBoardEffects`, with the opponent's stats after it. */
  datatype Applied = Applied(player: PlayerState, other: Option<Stats>)

  /** `applyBoardEffects`: the industries tick, then the policies. */
  function ApplyBoardEffects(p: PlayerState, other: Option<Stats>): (r: Applied)
    ensures r.player == p.(stats := r.player.stats, board := r.player.board)
    ensures OnlyGdpFloored(other, r.other)
  {
    var a := TickSlots(p.board.industries, p.stats, other);
    var b := TickSlots(p.board.policies, a.self, a.other);
    Applied(p.(stats := b.self, board := Board(a.slots, b.slots)), b.other)
  }

  // ---------------------------------------------------------------------------
  // Shuffling, drawing and dealing
  // ---------------------------------------------------------------------------

  /**
   * The shuffle each copy runs: the client seeds it with the current time, the server
   * draws from `Math.random()`. Either way the result is a permutation.
   */
  function ShuffleCards<T>(e: Engine, cards: seq<T>, now: int, draws: nat): (r: Drawn<seq<T>>)
    ensures |r.value| == |cards| && multiset(r.value) == multiset(cards)
    ensures r.draws >= draws
  {
    match e.copy
    case Client(mix, seeding) =>
      Drawn(ClientShuffle(cards, now, mix, seeding), draws)
    case Server(random) =>
      ServerShuffle.FisherYatesPermutes(cards, random, draws);
      Drawn(ServerShuffle.FisherYates(cards, random, draws), draws + ServerShuffle.DrawsUsed(|cards|))
  }

  /**
   * `shuffle(list, now)` on the client: as the program is written, each round re-seeds
   * from the previous round's result; with one generator, its state advances instead.
   */
  function ClientShuffle<T>(cards: seq<T>, now: int, mix: int -> Random.Unit, seeding: SeedMode): (r: seq<T>)
    ensures |r| == |cards| && multiset(r) == multiset(cards)
  {
    match seeding
    case ReseedEachRound =>
      Random.SeededShufflePermutes(cards, |cards|, now as real, mix);
      Random.SeededShuffle(cards, |cards|, now as real, mix)
    case OneGenerator =>
      Random.ShuffledPermutes(cards, now, mix);
      Random.Shuffled(cards, now, mix)
  }

  /** `reshuffle`: an empty discard changes nothing; otherwise it becomes the new deck. */
  function Reshuffle(e: Engine, p: PlayerState, now: int, draws: nat): (r: Drawn<PlayerState>)
    ensures |p.discard| == 0 ==> r == Drawn(p, draws)
    ensures |p.discard| > 0 ==>
      r.value == p.(deck := r.value.deck, discard := [])
      && multiset(r.value.deck) == multiset(p.discard) && |r.value.deck| == |p.discard|
  {
    if |p.discard| == 0 then Drawn(p, draws)
    else
      var s := ShuffleCards(e, p.discard, now, draws);
      Drawn(p.(deck := s.value, discard := []), s.draws)
  }

  /** `deck.shift()` followed by `hand.push(card)`. */
  function MoveTop(p: PlayerState): (r: PlayerState)
    requires |p.deck| > 0
    ensures r == p.(hand := r.hand, deck := r.deck)
    ensures |r.hand| == |p.hand| + 1 && r.hand[..|p.hand|] == p.hand && r.hand[|p.hand|] == p.deck[0]
    ensures |r.deck| == |p.deck| - 1 && forall i :: 0 <= i < |r.deck| ==> r.deck[i] == p.deck[i + 1]
  {
    p.(hand := p.hand + [p.deck[0]], deck := p.deck[1..])
  }

  /**
   * `drawCards`: up to `count` times, refill an empty deck from the discard (stopping
   * when both are empty) and move the top card to the hand.
   */
  function DrawCards(e: Engine, p: PlayerState, count: nat, now: int, draws: nat): (r: Drawn<PlayerState>)
    ensures r.value == p.(hand := r.value.hand, deck := r.value.deck, discard := r.value.discard)
    decreases count
  {
    if count == 0 then Drawn(p, draws)
    else
      var q := if |p.deck| == 0 then Reshuffle(e, p, now, draws) else Drawn(p, draws);
      if |q.value.deck| == 0 then q
      else DrawCards(e, MoveTop(q.value), count - 1, now, q.draws)
  }

  /** `drawToHandCap`: a full hand is left alone; otherwise draw up to HandSize. */
  function DrawToHandCap(e: Engine, p: PlayerState, now: int, draws: nat): (r: Drawn<PlayerState>)
    ensures |p.hand| >= HandSize ==> r == Drawn(p, draws)
  {
    if |p.hand| >= HandSize then Drawn(p, draws)
    else DrawCards(e, p, HandSize - |p.hand|, now, draws)
  }

  /** `Math.ceil(STARTER_DECK_SIZE / CARD_LIBRARY.length)` for a non-empty catalog. */
  function CopiesNeeded(n: nat): (c: nat)
    requires n > 0
    ensures c * n >= StarterDeckSize
    ensures c > 0 ==> (c - 1) * n < StarterDeckSize
  {
    (StarterDeckSize + n - 1) / n
  }

  /** The pool: `copies` catalogs one after another. */
  function Pool(catalog: seq<CardDefinition>, copies: nat): (r: seq<CardDefinition>)
    ensures |r| == copies * |catalog|
  {
    if copies == 0 then [] else catalog + Pool(catalog, copies - 1)
  }

  /** `map(instantiateCard)`: the i-th card gets the i-th fresh id. */
  function Instantiate(defs: seq<CardDefinition>, nextId: Ident): (r: seq<CardInstance>)
    ensures |r| == |defs|
    ensures forall i :: 0 <= i < |defs| ==> r[i] == CardInstance(defs[i], nextId + i)
  {
    if |defs| == 0 then []
    else Instantiate(defs[..|defs| - 1], nextId) + [CardInstance(defs[|defs| - 1], nextId + |defs| - 1)]
  }

  /** The thirty definitions `generateDeck` takes from the pool, before shuffling. */
  function DeckSample(catalog: seq<CardDefinition>): (r: seq<CardDefinition>)
    requires |catalog| > 0
    ensures |r| == StarterDeckSize
  {
    Pool(catalog, CopiesNeeded(|catalog|))[..StarterDeckSize]
  }

  /**
   * `generateDeck`: repeat the catalog, take thirty, shuffle, and give the cards the
   * fresh ids nextId .. nextId + 29. An empty catalog would make `generateDeck` loop
   * forever, so the catalog must not be empty.
   */
  function GenerateDeck(e: Engine, nextId: Ident, now: int, draws: nat): (r: Drawn<seq<CardInstance>>)
    requires |e.catalog| > 0
    ensures |r.value| == StarterDeckSize
  {
    var s := ShuffleCards(e, DeckSample(e.catalog), now, draws);
    Drawn(Instantiate(s.value, nextId), s.draws)
  }

  /** A player before the opening draw. */
  function FreshPlayer(id: PlayerId, name: string, deck: seq<CardInstance>): (r: PlayerState)
    ensures r.id == id && r.name == name && r.deck == deck
    ensures r.stats == StartingStats && InRange(r.stats)
    ensures r.hand == [] && r.discard == [] && r.board == Board([], [])
  {
    PlayerState(id, name, StartingStats, [], deck, [], Board([], []))
  }

  /**
   * `createPlayerState`: starting stats, a generated deck (ids nextId .. nextId + 29),
   * and an opening draw of HandSize cards.
   */
  function CreatePlayer(e: Engine, id: PlayerId, name: string, nextId: Ident, now: int, draws: nat): (r: Drawn<PlayerState>)
    requires |e.catalog| > 0
    ensures r.value.id == id && r.value.name == name && r.value.stats == StartingStats
    ensures r.value.board == Board([], []) && r.value.discard == []
  {
    var d := GenerateDeck(e, nextId, now, draws);
    DrawCards(e, FreshPlayer(id, name, d.value), HandSize, now, d.draws)
  }
}
