/**
 * Properties of the player-level rules: what each card does, how ongoing effects
 * tick and expire, what drawing moves where, and what a fresh deck contains.
 */
module PlayerLemmas {
  import opened Wrappers
  import opened GameTypes
  import opened PlayerRules
  import Random

  // ---------------------------------------------------------------------------
  // Clamping
  // ---------------------------------------------------------------------------

  /** Clamping twice is clamping once, and the in-range stats are exactly the fixed points. */
  lemma ClampIdempotent(s: Stats)
    ensures Clamp(Clamp(s)) == Clamp(s)
    ensures Clamp(s) == s <==> InRange(s)
  {
  }

  // ---------------------------------------------------------------------------
  // The card table
  // ---------------------------------------------------------------------------

  /**
   * What each of the fifteen handlers does to the caster, the target and the id supply.
   * Stat cards change only the listed stats; board cards append one slot to one list
   * and mint two ids.
   */
  lemma ResolveOutcome(card: CardInstance, caster: PlayerState, target: PlayerState, nextId: Ident)
    ensures var r := Resolve(card, caster, target, nextId);
      var c := caster.stats;
      var t := target.stats;
      match card.def.slug
      case BuildFactory =>
        r == Resolved(AddToBoard(caster, card, IndustryEffect, NoOverrides.(gdpPerTurn := Some(10)), nextId), target, nextId + 2)
      case TaxCut =>
        r == Resolved(AddToBoard(caster, card, PolicyEffect, NoOverrides.(
          happinessPerTurn := Some(3), cashNextTurnModifier := Some(-2), cashModifierUsesLeft := Some(1)), nextId), target, nextId + 2)
      case TradeDeal =>
        r == Resolved(caster.(stats := c.(gdp := c.gdp + 5, cash := c.cash + 5)), target, nextId)
      case InflationSpike =>
        r == Resolved(caster, target.(stats := t.(stability := t.stability - 10)), nextId)
      case GreenEnergy =>
        r == Resolved(caster.(stats := c.(gdp := c.gdp + 8, happiness := c.happiness + 3)), target, nextId)
      case HealthProgram =>
        r == Resolved(caster.(stats := c.(stability := c.stability + 10)), target, nextId)
      case TechnologyBoom =>
        r == Resolved(AddToBoard(caster, card, IndustryEffect, NoOverrides.(
          gdpPerTurn := Some(12), happinessPerTurn := Some(2)), nextId), target, nextId + 2)
      case Recession =>
        r == Resolved(caster.(stats := c.(gdp := c.gdp - 5, happiness := c.happiness + 3)),
                      target.(stats := t.(gdp := t.gdp - 5)), nextId)
      case TourismBoost =>
        r == Resolved(caster.(stats := c.(happiness := c.happiness + 6)), target, nextId)
      case PriceControls =>
        r == Resolved(caster, AddToBoard(target, card, PolicyEffect, NoOverrides.(
          gdpPerTurn := Some(-3), duration := Some(2)), nextId), nextId + 2)
      case NaturalDisaster =>
        r == Resolved(caster, target.(stats := t.(stability := t.stability - 15)), nextId)
      case EducationReform =>
        r == Resolved(AddToBoard(caster, card, PolicyEffect, NoOverrides.(
          gdpPerTurn := Some(2), happinessPerTurn := Some(2)), nextId), target, nextId + 2)
      case SmallBusinessGrant =>
        r == Resolved(AddToBoard(caster, card, IndustryEffect, NoOverrides.(gdpPerTurn := Some(5)), nextId), target, nextId + 2)
      case Strike =>
        r == Resolved(caster, target.(stats := t.(gdp := t.gdp - 5)), nextId)
      case HappinessFestival =>
        r == Resolved(caster.(stats := c.(happiness := c.happiness + 8, stability := c.stability + 5)), target, nextId)
  {
  }

  /** The slot a board card places carries a copy of the card under the fresh id nextId. */
  lemma PlacedSlotIsFreshDuplicate(card: CardInstance, caster: PlayerState, target: PlayerState, nextId: Ident)
    requires HandlerFor(card.def.slug).Place?
    ensures var r := Resolve(card, caster, target, nextId);
      var h := HandlerFor(card.def.slug);
      var owner := if h.onTarget then r.target else r.caster;
      var before := if h.onTarget then target else caster;
      var list := if h.kind == IndustryEffect then owner.board.industries else owner.board.policies;
      var old_list := if h.kind == IndustryEffect then before.board.industries else before.board.policies;
      && list == old_list + [list[|list| - 1]]
      && list[|list| - 1].card == CardInstance(card.def, nextId)
      && list[|list| - 1].effect.id == nextId + 1
      && list[|list| - 1].effect.cardSlug == card.def.slug
      && r.nextId == nextId + 2
  {
  }

  // ---------------------------------------------------------------------------
  // Ticking
  // ---------------------------------------------------------------------------

  /** The sum of one optional per-turn field over a list of slots. */
  function Total(slots: seq<BoardSlot>, field: OngoingEffect -> Option<int>): int
  {
    if |slots| == 0 then 0 else Total(slots[..|slots| - 1], field) + Num(field(slots[|slots| - 1].effect))
  }

  /** The map pass adds every slot's per-turn GDP, happiness and stability to the player. */
  lemma {:induction false} MapTickAddsDeltas(slots: seq<BoardSlot>, self: Stats, other: Option<Stats>)
    ensures var r := MapTick(slots, self, other);
      && r.self.gdp == self.gdp + Total(slots, (e: OngoingEffect) => e.gdpPerTurn)
      && r.self.happiness == self.happiness + Total(slots, (e: OngoingEffect) => e.happinessPerTurn)
      && r.self.stability == self.stability + Total(slots, (e: OngoingEffect) => e.stabilityPerTurn)
  {
    if |slots| > 0 {
      MapTickAddsDeltas(slots[..|slots| - 1], self, other);
    }
  }

  /** Filtering distributes over concatenation, so survivors keep their relative order. */
  lemma {:induction false} SurvivorsAppend(a: seq<BoardSlot>, b: seq<BoardSlot>)
    ensures Survivors(a + b) == Survivors(a) + Survivors(b)
    decreases |b|
  {
    if |b| == 0 {
      assert a + b == a;
    } else {
      var ab := a + b;
      var front := b[..|b| - 1];
      var last := b[|b| - 1];
      var tail := if Survives(last) then [last] else [];
      assert ab[..|ab| - 1] == a + front;
      assert ab[|ab| - 1] == last;
      assert Survivors(ab) == Survivors(a + front) + tail;
      SurvivorsAppend(a, front);
      assert Survivors(b) == Survivors(front) + tail;
      assert Survivors(a) + Survivors(front) + tail == Survivors(a) + (Survivors(front) + tail);
    }
  }

  /** A slot survives the filter exactly when it is in the list and not expired. */
  lemma {:induction false} SurvivorsExactly(slots: seq<BoardSlot>, x: BoardSlot)
    ensures x in Survivors(slots) <==> x in slots && Survives(x)
  {
    if |slots| > 0 {
      SurvivorsExactly(slots[..|slots| - 1], x);
      assert slots == slots[..|slots| - 1] + [slots[|slots| - 1]];
    }
  }

  /** An effect without a duration is never dropped by a tick. */
  lemma NoDurationKept(slots: seq<BoardSlot>, self: Stats, other: Option<Stats>, i: nat)
    requires i < |slots| && slots[i].effect.duration.None?
    ensures MapTick(slots, self, other).slots[i] in TickSlots(slots, self, other).slots
  {
    MapTickSlot(slots, self, other, i);
    SurvivorsExactly(MapTick(slots, self, other).slots, MapTick(slots, self, other).slots[i]);
  }

  /**
   * Each slot of the map pass is that slot after its own tick. The new slot depends on
   * the slot alone, not on the stats the earlier slots have left.
   */
  lemma {:induction false} MapTickSlot(slots: seq<BoardSlot>, self: Stats, other: Option<Stats>, i: nat)
    requires i < |slots|
    ensures MapTick(slots, self, other).slots[i] == TickOne(slots[i], self, other).slot
  {
    var front := slots[..|slots| - 1];
    if i < |slots| - 1 {
      MapTickSlot(front, self, other, i);
    } else {
      var t := MapTick(front, self, other);
      assert TickOne(slots[i], t.self, t.other).slot == TickOne(slots[i], self, other).slot;
    }
  }

  /**
   * Tax Cut's cash modifier fires on the first tick only: that tick floors cash at 0
   * after the -2, and from then on the effect is a fixed point of ticking that leaves
   * cash alone while still adding its +3 happiness.
   */
  lemma TaxCutFiresOnce(card: CardInstance, caster: PlayerState, target: PlayerState, nextId: Ident,
                        s1: Stats, s2: Stats, other: Option<Stats>)
    requires card.def.slug == TaxCut
    ensures var placed := Resolve(card, caster, target, nextId).caster.board.policies;
      var slot := placed[|placed| - 1];
      var t1 := TickOne(slot, s1, other);
      var t2 := TickOne(t1.slot, s2, other);
      && t1.self == s1.(cash := Max(0, s1.cash - 2), happiness := s1.happiness + 3)
      && Survives(t1.slot)
      && t2.self == s2.(happiness := s2.happiness + 3)
      && t2.slot == t1.slot
  {
  }

  /**
   * Price Controls lands on the target's policies and lowers that player's GDP by 3 on
   * exactly two ticks: it survives the first and is dropped after the second.
   */
  lemma PriceControlsTwice(card: CardInstance, caster: PlayerState, target: PlayerState, nextId: Ident,
                           s1: Stats, s2: Stats, other: Option<Stats>)
    requires card.def.slug == PriceControls
    ensures var r := Resolve(card, caster, target, nextId);
      var placed := r.target.board.policies;
      var slot := placed[|placed| - 1];
      var t1 := TickOne(slot, s1, other);
      var t2 := TickOne(t1.slot, s2, other);
      && r.caster == caster
      && t1.self == s1.(gdp := s1.gdp - 3) && Survives(t1.slot)
      && t2.self == s2.(gdp := s2.gdp - 3) && !Survives(t2.slot)
  {
  }

  // ---------------------------------------------------------------------------
  // Drawing
  // ---------------------------------------------------------------------------

  /** All of a player's cards outside the board. */
  function Cards(p: PlayerState): multiset<CardInstance>
  {
    multiset(p.hand) + multiset(p.deck) + multiset(p.discard)
  }

  /** Moving the top card to the hand keeps every card. */
  lemma MoveTopConserves(p: PlayerState)
    requires |p.deck| > 0
    ensures Cards(MoveTop(p)) == Cards(p)
  {
    assert p.deck == [p.deck[0]] + p.deck[1..];
  }

  /** A reshuffle turns the discard into the deck and keeps every card. */
  lemma ReshuffleConserves(e: Engine, p: PlayerState, now: int, draws: nat)
    requires |p.deck| == 0
    ensures Cards(Reshuffle(e, p, now, draws).value) == Cards(p)
  {
  }

  /** Drawing (with any reshuffle) moves cards between zones and never gains or loses one. */
  lemma {:induction false} DrawCardsConserves(e: Engine, p: PlayerState, count: nat, now: int, draws: nat)
    ensures Cards(DrawCards(e, p, count, now, draws).value) == Cards(p)
    decreases count
  {
    if count > 0 {
      var c: nat := count - 1;
      if |p.deck| > 0 {
        DrawStep(e, p, count, now, draws);
        MoveTopConserves(p);
        DrawCardsConserves(e, MoveTop(p), c, now, draws);
      } else {
        var q := Reshuffle(e, p, now, draws);
        ReshuffleConserves(e, p, now, draws);
        if |q.value.deck| > 0 {
          MoveTopConserves(q.value);
          DrawCardsConserves(e, MoveTop(q.value), c, now, q.draws);
        }
      }
    }
  }

  /** Drawing `count` cards adds min(count, deck + discard) cards to the hand. */
  lemma {:induction false} DrawCardsCount(e: Engine, p: PlayerState, count: nat, now: int, draws: nat)
    ensures |DrawCards(e, p, count, now, draws).value.hand| == |p.hand| + Min(count, |p.deck| + |p.discard|)
    decreases count
  {
    if count > 0 {
      var q := if |p.deck| == 0 then Reshuffle(e, p, now, draws) else Drawn(p, draws);
      assert |q.value.hand| == |p.hand| && |q.value.deck| + |q.value.discard| == |p.deck| + |p.discard|;
      if |q.value.deck| > 0 {
        DrawCardsCount(e, MoveTop(q.value), count - 1, now, q.draws);
      }
    }
  }

  /**
   * While the deck lasts, drawing moves the front `count` cards of the deck, in order,
   * to the back of the hand, and nothing is shuffled.
   */
  lemma {:induction false} DrawCardsFromDeck(e: Engine, p: PlayerState, count: nat, now: int, draws: nat)
    requires count <= |p.deck|
    ensures DrawCards(e, p, count, now, draws) ==
      Drawn(p.(hand := p.hand + p.deck[..count], deck := p.deck[count..]), draws)
    decreases count
  {
    if count > 0 {
      var c: nat := count - 1;
      var q := MoveTop(p);
      DrawStep(e, p, count, now, draws);
      DrawCardsFromDeck(e, q, c, now, draws);
      assert p.deck[..count] == [p.deck[0]] + q.deck[..c];
      assert q.hand + q.deck[..c] == p.hand + p.deck[..count];
      assert q.deck[c..] == p.deck[count..];
      assert q.(hand := q.hand + q.deck[..c], deck := q.deck[c..])
        == p.(hand := p.hand + p.deck[..count], deck := p.deck[count..]);
    } else {
      assert p.hand + p.deck[..0] == p.hand && p.deck[0..] == p.deck;
    }
  }

  /** With cards in the deck, one draw moves the top card and nothing is shuffled. */
  lemma DrawStep(e: Engine, p: PlayerState, count: nat, now: int, draws: nat)
    requires count > 0 && |p.deck| > 0
    ensures DrawCards(e, p, count, now, draws) == DrawCards(e, MoveTop(p), count - 1, now, draws)
  {
  }

  /**
   * `drawToHandCap` fills a short hand to HandSize unless deck and discard run out
   * together, keeps every card, and leaves a full hand alone.
   */
  lemma DrawToHandCapFills(e: Engine, p: PlayerState, now: int, draws: nat)
    ensures var r := DrawToHandCap(e, p, now, draws).value;
      && Cards(r) == Cards(p)
      && (|p.hand| < HandSize ==> |r.hand| == Min(HandSize, |p.hand| + |p.deck| + |p.discard|))
      && (|p.hand| >= HandSize ==> r == p)
  {
    if |p.hand| < HandSize {
      var count := HandSize - |p.hand|;
      assert DrawToHandCap(e, p, now, draws) == DrawCards(e, p, count, now, draws);
      DrawCardsConserves(e, p, count, now, draws);
      DrawCardsCount(e, p, count, now, draws);
    }
  }

  // ---------------------------------------------------------------------------
  // Decks
  // ---------------------------------------------------------------------------

  /** A product of positive factors is at least each of them. */
  lemma MulAtLeast(d: int, n: int)
    requires d >= 1 && n > 0
    ensures d * n >= n
  {
  }

  /** Euclidean remainders are unique: x = q * n + r with 0 <= r < n fixes x % n. */
  lemma ModUnique(x: int, n: int, q: int, r: int)
    requires n > 0 && 0 <= r < n && x == q * n + r
    ensures x % n == r
  {
    var q', r' := x / n, x % n;
    assert x == q' * n + r';
    if q > q' {
      MulAtLeast(q - q', n);
    } else if q < q' {
      MulAtLeast(q' - q, n);
    }
  }

  /** Stepping back one period does not change a remainder. */
  lemma ModStep(i: int, n: int)
    requires n > 0 && i >= n
    ensures i % n == (i - n) % n
  {
    var q, r := (i - n) / n, (i - n) % n;
    assert i - n == q * n + r;
    ModUnique(i, n, q + 1, r);
  }

  /** An index past the first period of `copies` periods lies within the other copies - 1. */
  lemma PeriodBack(i: nat, n: nat, copies: nat)
    requires n <= i < copies * n
    ensures copies >= 1 && i - n < (copies - 1) * n
  {
  }

  /** The pool is the catalog repeated: position i holds catalog[i mod |catalog|]. */
  lemma {:induction false} PoolAt(catalog: seq<CardDefinition>, copies: nat, i: nat)
    requires i < copies * |catalog|
    ensures Pool(catalog, copies)[i] == catalog[i % |catalog|]
  {
    var rest := Pool(catalog, copies - 1);
    assert Pool(catalog, copies) == catalog + rest;
    if i >= |catalog| {
      PeriodBack(i, |catalog|, copies);
      var c: nat := copies - 1;
      var j: nat := i - |catalog|;
      PoolAt(catalog, c, j);
      ModStep(i, |catalog|);
    } else {
      ModUnique(i, |catalog|, 0, i);
    }
  }

  /** One more copy of the catalog goes on the end: the pool grows as the loop in `generateDeck` pushes. */
  lemma {:induction false} PoolSnoc(catalog: seq<CardDefinition>, copies: nat)
    ensures Pool(catalog, copies + 1) == Pool(catalog, copies) + catalog
  {
    if copies > 0 {
      var c: nat := copies - 1;
      PoolSnoc(catalog, c);
      assert Pool(catalog, copies + 1) == catalog + (Pool(catalog, c) + catalog);
    }
  }

  /** The definitions of a list of cards. */
  function Defs(cards: seq<CardInstance>): (r: seq<CardDefinition>)
    ensures |r| == |cards| && forall i :: 0 <= i < |cards| ==> r[i] == cards[i].def
  {
    seq(|cards|, i requires 0 <= i < |cards| => cards[i].def)
  }

  /**
   * A generated deck has StarterDeckSize cards with the consecutive fresh ids
   * nextId, nextId + 1, ..., and its definitions are a permutation of the first
   * thirty entries of the repeated catalog.
   */
  lemma GenerateDeckContents(e: Engine, nextId: Ident, now: int, draws: nat)
    requires |e.catalog| > 0
    ensures var d := GenerateDeck(e, nextId, now, draws).value;
      && |d| == StarterDeckSize
      && (forall i :: 0 <= i < |d| ==> d[i].instanceId == nextId + i)
      && multiset(Defs(d)) == multiset(DeckSample(e.catalog))
      && (forall i :: 0 <= i < StarterDeckSize ==> DeckSample(e.catalog)[i] == e.catalog[i % |e.catalog|])
  {
    var s := ShuffleCards(e, DeckSample(e.catalog), now, draws);
    assert Defs(Instantiate(s.value, nextId)) == s.value;
    forall i | 0 <= i < StarterDeckSize
      ensures DeckSample(e.catalog)[i] == e.catalog[i % |e.catalog|]
    {
      PoolAt(e.catalog, CopiesNeeded(|e.catalog|), i);
    }
  }

  /**
   * On the client as the program is written, a deal depends on the time only through
   * the first index its shuffle draws: deals at two times whose first draws pick the
   * same index are the same deck, so at most StarterDeckSize orders can ever be dealt.
   */
  lemma ClientDealDecidedByFirstIndex(e: Engine, nextId: Ident, now1: int, now2: int, draws: nat)
    requires |e.catalog| > 0
    requires e.copy.Client? && e.copy.seeding == ReseedEachRound
    requires Random.Index(Random.Mulberry32(now1 as real, e.copy.mix), StarterDeckSize)
          == Random.Index(Random.Mulberry32(now2 as real, e.copy.mix), StarterDeckSize)
    ensures GenerateDeck(e, nextId, now1, draws) == GenerateDeck(e, nextId, now2, draws)
  {
    Random.SeededShuffleDecidedByFirstIndex(DeckSample(e.catalog), now1 as real, now2 as real, e.copy.mix);
  }

  /**
   * A new player's opening hand is the first HandSize cards of the generated deck and
   * the rest stay in the deck, in order.
   */
  lemma CreatePlayerDeal(e: Engine, id: PlayerId, name: string, nextId: Ident, now: int, draws: nat)
    requires |e.catalog| > 0
    ensures var g := GenerateDeck(e, nextId, now, draws);
      var r := CreatePlayer(e, id, name, nextId, now, draws);
      && r.value.hand == g.value[..HandSize] && r.value.deck == g.value[HandSize..]
      && |r.value.hand| == HandSize && |r.value.deck| == StarterDeckSize - HandSize
      && r.draws == g.draws
  {
    var g := GenerateDeck(e, nextId, now, draws);
    DrawCardsFromDeck(e, FreshPlayer(id, name, g.value), HandSize, now, g.draws);
  }
}
