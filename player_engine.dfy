/**
 * The player-level helpers of the engine as the TypeScript engine writes them: loops that work
 * on one player step by step. A player is a value; each helper takes it and returns
 * its new value, and is proved to compute what the corresponding rule in PlayerRules
 * describes.
 */
module PlayerEngine {
  import opened Wrappers
  import opened GameTypes
  import opened PlayerRules
  import Random
  import ServerShuffle
  import PlayerLemmas

  /** The shuffle the engine copy runs: seeded with the time on the client, unseeded on the server. */
  method ShuffleCards<T>(e: Engine, cards: seq<T>, now: int, draws: nat) returns (r: seq<T>, next: nat)
    ensures Drawn(r, next) == PlayerRules.ShuffleCards(e, cards, now, draws)
  {
    match e.copy
    case Client(mix, ReseedEachRound) =>
      r := Random.ShuffleAsWritten(cards, now as real, mix);
      next := draws;
    case Client(mix, OneGenerator) =>
      r := Random.Shuffle(cards, now, mix);
      next := draws;
    case Server(random) =>
      r, next := ServerShuffle.Shuffle(cards, random, draws);
  }

  /** `reshuffle`: an empty discard is left alone; otherwise it is shuffled into the deck. */
  method Reshuffle(e: Engine, p: PlayerState, now: int, draws: nat) returns (r: PlayerState, next: nat)
    ensures Drawn(r, next) == PlayerRules.Reshuffle(e, p, now, draws)
  {
    r, next := p, draws;
    if |p.discard| == 0 {
      return;
    }
    var deck;
    deck, next := ShuffleCards(e, p.discard, now, draws);
    r := r.(deck := deck, discard := []);
  }

  /**
   * `drawCards`: up to `count` times, refill an empty deck from the discard (stopping
   * when both are empty), then move the top card of the deck to the hand.
   */
  method DrawCards(e: Engine, p: PlayerState, count: nat, now: int, draws: nat) returns (r: PlayerState, next: nat)
    ensures Drawn(r, next) == PlayerRules.DrawCards(e, p, count, now, draws)
  {
    r, next := p, draws;
    for i := 0 to count
      invariant PlayerRules.DrawCards(e, r, count - i, now, next) == PlayerRules.DrawCards(e, p, count, now, draws)
    {
      if |r.deck| == 0 {
        ghost var before, drawsBefore := r, next;
        r, next := Reshuffle(e, r, now, next);
        if |r.deck| == 0 {
          assert PlayerRules.DrawCards(e, before, count - i, now, drawsBefore) == Drawn(r, next);
          break;
        }
      }
      var card := r.deck[0];
      r := r.(deck := r.deck[1..]);
      r := r.(hand := r.hand + [card]);
    }
  }

  /** The per-turn deltas of one effect; a missing or zero delta adds nothing. */
  method AddPerTurn(effect: OngoingEffect, self: Stats) returns (s: Stats)
    ensures s == self.(gdp := self.gdp + Num(effect.gdpPerTurn),
      happiness := self.happiness + Num(effect.happinessPerTurn),
      stability := self.stability + Num(effect.stabilityPerTurn))
  {
    s := self;
    if effect.gdpPerTurn.Some? && effect.gdpPerTurn.value != 0 {
      s := s.(gdp := s.gdp + effect.gdpPerTurn.value);
    }
    if effect.happinessPerTurn.Some? && effect.happinessPerTurn.value != 0 {
      s := s.(happiness := s.happiness + effect.happinessPerTurn.value);
    }
    if effect.stabilityPerTurn.Some? && effect.stabilityPerTurn.value != 0 {
      s := s.(stability := s.stability + effect.stabilityPerTurn.value);
    }
  }

  /** The `map` callback of `tickBoardSlots`: apply one effect and count it down. */
  method TickSlot(slot: BoardSlot, self: Stats, other: Option<Stats>) returns (r: TickedSlot)
    ensures r == TickOne(slot, self, other)
  {
    var effect := slot.effect;
    var s := AddPerTurn(effect, self);
    var o := other;
    if CashModifierFires(effect) {
      s := s.(cash := Max(0, s.cash + effect.cashNextTurnModifier.value));
      effect := effect.(cashModifierUsesLeft := Some(effect.cashModifierUsesLeft.value - 1));
    }
    if OpponentModifierFires(effect, o) {
      o := Some(o.value.(gdp := Max(0, o.value.gdp + effect.opponentIndustryGdpModifier.value)));
    }
    if effect.duration.Some? {
      effect := effect.(duration := Some(effect.duration.value - 1));
    }
    r := TickedSlot(slot.(effect := effect), s, o);
  }

  /** `tickBoardSlots`: tick every slot in order, then keep the ones whose duration has not run out. */
  method TickBoardSlots(slots: seq<BoardSlot>, self: Stats, other: Option<Stats>) returns (r: Ticked)
    ensures r == TickSlots(slots, self, other)
  {
    var mapped: seq<BoardSlot> := [];
    var s := self;
    var o := other;
    for i := 0 to |slots|
      invariant MapTick(slots[..i], self, other) == Ticked(mapped, s, o)
    {
      assert slots[..i + 1][..i] == slots[..i];
      var one := TickSlot(slots[i], s, o);
      mapped := mapped + [one.slot];
      s := one.self;
      o := one.other;
    }
    assert slots[..|slots|] == slots;
    var kept: seq<BoardSlot> := [];
    for i := 0 to |mapped|
      invariant kept == Survivors(mapped[..i])
    {
      assert mapped[..i + 1][..i] == mapped[..i];
      if Survives(mapped[i]) {
        kept := kept + [mapped[i]];
      }
    }
    assert mapped[..|mapped|] == mapped;
    r := Ticked(kept, s, o);
  }

  /** `applyBoardEffects`: industries tick first, then policies. */
  method ApplyBoardEffects(p: PlayerState, other: Option<Stats>) returns (r: Applied)
    ensures r == PlayerRules.ApplyBoardEffects(p, other)
  {
    var industries := TickBoardSlots(p.board.industries, p.stats, other);
    var policies := TickBoardSlots(p.board.policies, industries.self, industries.other);
    r := Applied(p.(stats := policies.self, board := Board(industries.slots, policies.slots)), policies.other);
  }

  /** The pool loop of `generateDeck`: push the whole catalog `copies` times. */
  method BuildPool(catalog: seq<CardDefinition>, copies: nat) returns (pool: seq<CardDefinition>)
    ensures pool == Pool(catalog, copies)
  {
    pool := [];
    for i := 0 to copies
      invariant pool == Pool(catalog, i)
    {
      PlayerLemmas.PoolSnoc(catalog, i);
      pool := pool + catalog;
    }
  }

  /** `map(instantiateCard)`: each definition becomes a card with the next fresh id. */
  method InstantiateAll(defs: seq<CardDefinition>, nextId: Ident) returns (cards: seq<CardInstance>)
    ensures cards == Instantiate(defs, nextId)
  {
    cards := [];
    for i := 0 to |defs|
      invariant cards == Instantiate(defs[..i], nextId)
    {
      assert defs[..i + 1][..i] == defs[..i];
      cards := cards + [CardInstance(defs[i], nextId + i)];
    }
    assert defs[..|defs|] == defs;
  }

  /**
   * `generateDeck`: build the pool, take the first thirty, shuffle, and give each card
   * the next fresh id.
   */
  method GenerateDeck(e: Engine, nextId: Ident, now: int, draws: nat) returns (deck: seq<CardInstance>, next: nat)
    requires |e.catalog| > 0
    ensures Drawn(deck, next) == PlayerRules.GenerateDeck(e, nextId, now, draws)
  {
    var pool := BuildPool(e.catalog, CopiesNeeded(|e.catalog|));
    var slice := pool[..StarterDeckSize];
    assert slice == DeckSample(e.catalog);
    var shuffled;
    shuffled, next := ShuffleCards(e, slice, now, draws);
    deck := InstantiateAll(shuffled, nextId);
  }

  /** `createPlayerState`: starting stats, a generated deck, and an opening hand. */
  method CreatePlayer(e: Engine, id: PlayerId, name: string, nextId: Ident, now: int, draws: nat) returns (p: PlayerState, next: nat)
    requires |e.catalog| > 0
    ensures Drawn(p, next) == PlayerRules.CreatePlayer(e, id, name, nextId, now, draws)
  {
    var deck;
    deck, next := GenerateDeck(e, nextId, now, draws);
    p := PlayerState(id, name, StartingStats, [], deck, [], Board([], []));
    p, next := DrawCards(e, p, HandSize, now, next);
  }
}
