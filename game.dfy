/**
 * The shared data model of the card duel: card identities, player statistics,
 * ongoing board effects, player and match state, and the fixed game constants.
 */
module GameTypes {
  import opened Wrappers

  type PlayerId = string
  type MatchId = string

  /** Instance, effect and event identifiers are minted by a fresh-number supply. */
  type Ident = nat

  /** The closed set of fifteen card identities; the effect table is total over it. */
  datatype CardSlug =
    | BuildFactory
    | TaxCut
    | TradeDeal
    | InflationSpike
    | GreenEnergy
    | HealthProgram
    | TechnologyBoom
    | Recession
    | TourismBoost
    | PriceControls
    | NaturalDisaster
    | EducationReform
    | SmallBusinessGrant
    | Strike
    | HappinessFestival

  datatype CardType = Event | Policy | Industry | Social

  datatype Stats = Stats(gdp: int, stability: int, cash: int, happiness: int)

  /** One row of the card catalog; the rows themselves are a parameter of the model. */
  datatype CardDefinition = CardDefinition(
    slug: CardSlug,
    name: string,
    cardType: CardType,
    cost: int,
    summary: string,
    concept: string)

  /** A catalog row copied into a zone, told apart from other copies by its instance id. */
  datatype CardInstance = CardInstance(def: CardDefinition, instanceId: Ident)

  datatype EffectKind = IndustryEffect | PolicyEffect

  /** An ongoing effect; every delta is optional and an absent one has no effect. */
  datatype OngoingEffect = OngoingEffect(
    id: Ident,
    kind: EffectKind,
    cardSlug: CardSlug,
    gdpPerTurn: Option<int>,
    happinessPerTurn: Option<int>,
    stabilityPerTurn: Option<int>,
    cashNextTurnModifier: Option<int>,
    cashModifierUsesLeft: Option<int>,
    opponentIndustryGdpModifier: Option<int>,
    duration: Option<int>)

  datatype BoardSlot = BoardSlot(card: CardInstance, effect: OngoingEffect)

  datatype Board = Board(industries: seq<BoardSlot>, policies: seq<BoardSlot>)

  datatype PlayerState = PlayerState(
    id: PlayerId,
    name: string,
    stats: Stats,
    hand: seq<CardInstance>,
    deck: seq<CardInstance>,
    discard: seq<CardInstance>,
    board: Board)

  /**
   * The event-log messages, as tokens carrying the names the texts mention; the
   * wording itself is not modelled.
   */
  datatype Message =
    | MatchCreated(hostName: string)
    | PlayerJoined(playerName: string)
    | TurnStarted(playerName: string)
    | CardResolved(slug: CardSlug, casterName: string, opponentName: string)
    | Attacked(attackerName: string, damage: int)
    | EconomicVictory(winnerName: string)
    | DominationVictory(winnerName: string)

  datatype GameEvent = GameEvent(id: Ident, message: Message, timestamp: int)

  datatype TurnState = TurnState(cardsPlayed: nat, attackUsed: bool)

  datatype MatchState = MatchState(
    id: MatchId,
    players: map<PlayerId, PlayerState>,
    turnOrder: seq<PlayerId>,
    activePlayerId: PlayerId,
    winnerId: Option<PlayerId>,
    eventLog: seq<GameEvent>,
    turnState: TurnState)

  const StartingStats: Stats := Stats(10, 100, 10, 10)

  const HandSize: nat := 5
  const CardsPerTurn: nat := 2
  const CashGainPerTurn: int := 5
  const VictoryHappiness: int := 120
  const DominationStability: int := 0

  /** The number of cards in a freshly generated deck. */
  const StarterDeckSize: nat := 30

  /** The ceiling `clampPlayer` puts on stability. */
  const StabilityCap: int := 150

  /** The number of entries the event log keeps. */
  const EventLogCap: nat := 40

  /** The ranges `clampPlayer` establishes. */
  predicate InRange(s: Stats) {
    && s.cash >= 0
    && s.gdp >= 0
    && 0 <= s.stability <= StabilityCap
    && 0 <= s.happiness <= VictoryHappiness
  }

  /** A fresh player starts inside the clamped ranges. */
  lemma StartingStatsInRange()
    ensures InRange(StartingStats)
  {
  }
}
