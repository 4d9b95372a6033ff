/**
 * The match-level rules of both engine copies, as functions from the old world to the
 * new one: joining, turns, playing a card, attacking, ending a turn, victory and the
 * event log.
 *
 * A world is the match together with the two supplies the engines draw on: the next
 * fresh identifier (for `nanoid` / `randomId`) and the position of the `Math.random()`
 * stream. `now` is the value of `Date.now()` during one public call.
 */
module MatchRules {
  import opened Wrappers
  import opened GameTypes
  import opened PlayerRules

  datatype World = World(state: MatchState, nextId: Ident, draws: nat)

  /** The errors the public operations throw, one per `throw` in the TypeScript engine. */
  datatype GameError =
    | NotYourTurn
    | MissingOpponent
    | CardLimitReached
    | CardNotFound
    | NotEnoughCash
    | AttackAlreadyUsed
    | NoGdpToAttack
    | MatchFull

  /** JavaScript truthiness of an optional string: present and not empty. */
  predicate Truthy(o: Option<string>)
  {
    o.Some? && o.value != ""
  }

  // ---------------------------------------------------------------------------
  // Lookups
  // ---------------------------------------------------------------------------

  /** `turnOrder.find((id) => id !== playerId)`. */
  function FindOther(order: seq<PlayerId>, pid: PlayerId): (r: Option<PlayerId>)
    ensures r.Some? ==> r.value in order && r.value != pid
    ensures r.None? <==> forall i :: 0 <= i < |order| ==> order[i] == pid
  {
    if |order| == 0 then None
    else if order[0] != pid then Some(order[0])
    else FindOther(order[1..], pid)
  }

  /**
   * `getOpponent`: the first other id in the turn order, if that id is truthy and
   * seated. Returns the id; the opponent's state is `players[id]`.
   */
  function OpponentId(m: MatchState, pid: PlayerId): (r: Option<PlayerId>)
    ensures r.Some? ==> r.value in m.players && r.value in m.turnOrder && r.value != pid && r.value != ""
  {
    var o := FindOther(m.turnOrder, pid);
    if o.Some? && o.value != "" && o.value in m.players then o else None
  }

  /** `hand.findIndex((card) => card.instanceId === cardInstanceId)`. */
  function FindCard(hand: seq<CardInstance>, id: Ident): (r: int)
    ensures -1 <= r < |hand|
    ensures r == -1 <==> forall k :: 0 <= k < |hand| ==> hand[k].instanceId != id
    ensures r >= 0 ==> hand[r].instanceId == id && forall k :: 0 <= k < r ==> hand[k].instanceId != id
  {
    if |hand| == 0 then -1
    else if hand[0].instanceId == id then 0
    else
      var k := FindCard(hand[1..], id);
      if k == -1 then -1 else k + 1
  }

  /** `turnOrder.indexOf(playerId)`. */
  function IndexOf(order: seq<PlayerId>, pid: PlayerId): (r: int)
    ensures -1 <= r < |order|
    ensures r == -1 <==> pid !in order
    ensures r >= 0 ==> order[r] == pid && forall k :: 0 <= k < r ==> order[k] != pid
  {
    if |order| == 0 then -1
    else if order[0] == pid then 0
    else
      var k := IndexOf(order[1..], pid);
      if k == -1 then -1 else k + 1
  }

  /** `hand.splice(i, 1)`. */
  function RemoveAt<T>(s: seq<T>, i: nat): (r: seq<T>)
    requires i < |s|
    ensures |r| == |s| - 1
    ensures multiset(r) + multiset{s[i]} == multiset(s)
  {
    assert s == s[..i] + [s[i]] + s[i + 1..];
    s[..i] + s[i + 1..]
  }

  // ---------------------------------------------------------------------------
  // The event log
  // ---------------------------------------------------------------------------

  /** `log`: prepend the new entry, then keep the newest EventLogCap entries. */
  function Log(m: MatchState, msg: Message, id: Ident, now: int): (r: MatchState)
    ensures r == m.(eventLog := r.eventLog)
    ensures |r.eventLog| == Min(EventLogCap, |m.eventLog| + 1)
    ensures r.eventLog[0] == GameEvent(id, msg, now)
    ensures forall i :: 1 <= i < |r.eventLog| ==> r.eventLog[i] == m.eventLog[i - 1]
  {
    var entries := [GameEvent(id, msg, now)] + m.eventLog;
    m.(eventLog := if |entries| <= EventLogCap then entries else entries[..EventLogCap])
  }

  /** Log with the next fresh id as the entry's id. */
  function LogW(w: World, msg: Message, now: int): (r: World)
    ensures r.state == Log(w.state, msg, w.nextId, now)
    ensures r.nextId == w.nextId + 1 && r.draws == w.draws
  {
    World(Log(w.state, msg, w.nextId, now), w.nextId + 1, w.draws)
  }

  // ---------------------------------------------------------------------------
  // Victory
  // ---------------------------------------------------------------------------

  datatype Verdict = Economic(key: PlayerId) | Domination(key: PlayerId)

  /** The key of the player a verdict names. */
  function VerdictKey(v: Verdict): PlayerId
  {
    match v
    case Economic(k) => k
    case Domination(k) => k
  }

  /** The happiness test of `checkVictory`. */
  predicate WinsEconomically(m: MatchState, key: PlayerId)
    ensures WinsEconomically(m, key) ==>
      && key in m.players
      && (InRange(m.players[key].stats) ==> m.players[key].stats.happiness == VictoryHappiness)
  {
    key in m.players && m.players[key].stats.happiness >= VictoryHappiness
  }

  /** The domination test of `checkVictory`: the player's opponent has no stability left. */
  predicate WinsByDomination(m: MatchState, key: PlayerId)
    ensures WinsByDomination(m, key) ==>
      && key in m.players
      && OpponentId(m, m.players[key].id).Some?
      && var o := m.players[OpponentId(m, m.players[key].id).value];
         InRange(o.stats) ==> o.stats.stability == 0
  {
    && key in m.players
    && var o := OpponentId(m, m.players[key].id);
    o.Some? && m.players[o.value].stats.stability <= DominationStability
  }

  /** `players.forEach(clampPlayer)`. */
  function ClampAll(players: map<PlayerId, PlayerState>): (r: map<PlayerId, PlayerState>)
    ensures r.Keys == players.Keys
    ensures forall k :: k in r ==> r[k] == ClampPlayer(players[k])
  {
    map k | k in players :: ClampPlayer(players[k])
  }

  /** The client's first pass: the first player, in turn order, with enough happiness. */
  function FirstEconomic(m: MatchState, order: seq<PlayerId>): (r: Option<PlayerId>)
    ensures r.Some? ==> r.value in order && WinsEconomically(m, r.value)
    ensures r.None? <==> forall i :: 0 <= i < |order| ==> !WinsEconomically(m, order[i])
  {
    if |order| == 0 then None
    else if WinsEconomically(m, order[0]) then Some(order[0])
    else FirstEconomic(m, order[1..])
  }

  /** The client's second pass: the first player, in turn order, whose opponent is beaten. */
  function FirstDomination(m: MatchState, order: seq<PlayerId>): (r: Option<PlayerId>)
    ensures r.Some? ==> r.value in order && WinsByDomination(m, r.value)
    ensures r.None? <==> forall i :: 0 <= i < |order| ==> !WinsByDomination(m, order[i])
  {
    if |order| == 0 then None
    else if WinsByDomination(m, order[0]) then Some(order[0])
    else FirstDomination(m, order[1..])
  }

  /** The client verdict: an Economic pass over everybody before any Domination pass. */
  function ClientVerdict(m: MatchState): (r: Option<Verdict>)
    ensures r.Some? ==> VerdictKey(r.value) in m.turnOrder
  {
    match FirstEconomic(m, m.turnOrder)
    case Some(k) => Some(Economic(k))
    case None =>
      match FirstDomination(m, m.turnOrder)
      case Some(k) => Some(Domination(k))
      case None => None
  }

  /** The server verdict: each player in turn is tested for happiness, then domination. */
  function ServerVerdict(m: MatchState, order: seq<PlayerId>): (r: Option<Verdict>)
    ensures r.Some? ==> VerdictKey(r.value) in order
  {
    if |order| == 0 then None
    else if WinsEconomically(m, order[0]) then Some(Economic(order[0]))
    else if WinsByDomination(m, order[0]) then Some(Domination(order[0]))
    else ServerVerdict(m, order[1..])
  }

  /** Record the verdict: `winnerId = player.id`, then log the victory. */
  function Declare(w: World, v: Verdict, now: int): (r: World)
    requires VerdictKey(v) in w.state.players
    ensures r.state.winnerId == Some(w.state.players[VerdictKey(v)].id)
    ensures r.state == w.state.(winnerId := r.state.winnerId, eventLog := r.state.eventLog)
    ensures |r.state.eventLog| > 0 && r.state.eventLog[0].id == w.nextId
    ensures r.nextId == w.nextId + 1 && r.draws == w.draws
  {
    var p := w.state.players[VerdictKey(v)];
    var msg := match v
      case Economic(_) => EconomicVictory(p.name)
      case Domination(_) => DominationVictory(p.name);
    LogW(w.(state := w.state.(winnerId := Some(p.id))), msg, now)
  }

  /** The world after a verdict (or after none). */
  function Settle(w: World, v: Option<Verdict>, now: int): (r: World)
    requires v.Some? ==> VerdictKey(v.value) in w.state.players
    ensures v.None? ==> r == w
    ensures v.Some? ==> r.state.winnerId == Some(w.state.players[VerdictKey(v.value)].id)
    ensures r.state == w.state.(winnerId := r.state.winnerId, eventLog := r.state.eventLog)
  {
    if v.Some? then Declare(w, v.value, now) else w
  }

  /**
   * `checkVictory`: nothing happens once a (truthy) winner is recorded. The client
   * clamps every player, then runs its two passes; the server runs its interleaved
   * pass on the stats as they are.
   */
  function CheckVictory(e: Engine, w: World, now: int): (r: World)
    requires forall k :: k in w.state.turnOrder ==> k in w.state.players
    ensures Truthy(w.state.winnerId) ==> r == w
    ensures r.state == w.state.(players := r.state.players, winnerId := r.state.winnerId, eventLog := r.state.eventLog)
    ensures r.state.players.Keys == w.state.players.Keys
  {
    if Truthy(w.state.winnerId) then w
    else
      match e.copy
      case Client(_, _) =>
        var c := w.(state := w.state.(players := ClampAll(w.state.players)));
        Settle(c, ClientVerdict(c.state), now)
      case Server(_) =>
        Settle(w, ServerVerdict(w.state, w.state.turnOrder), now)
  }

  // ---------------------------------------------------------------------------
  // Turns
  // ---------------------------------------------------------------------------

  /** The opponent's stats as `applyBoardEffects` sees them. */
  function OtherStats(m: MatchState, o: Option<PlayerId>): (r: Option<Stats>)
    requires o.Some? ==> o.value in m.players
    ensures r.Some? == o.Some?
  {
    if o.Some? then Some(m.players[o.value].stats) else None
  }

  /**
   * The player's part of `startTurn`: gain CashGainPerTurn, tick the board (which may
   * touch the opponent's GDP), refill the hand, clamp. Returns the player and the
   * opponent's stats after it.
   */
  function TurnPlayer(e: Engine, p: PlayerState, other: Option<Stats>, now: int, draws: nat): (r: Drawn<Applied>)
    ensures r.value.player == p.(stats := r.value.player.stats, board := r.value.player.board,
      hand := r.value.player.hand, deck := r.value.player.deck, discard := r.value.player.discard)
    ensures InRange(r.value.player.stats)
    ensures OnlyGdpFloored(other, r.value.other)
  {
    var p1 := p.(stats := p.stats.(cash := p.stats.cash + CashGainPerTurn));
    var a := ApplyBoardEffects(p1, other);
    var d := DrawToHandCap(e, a.player, now, draws);
    Drawn(Applied(ClampPlayer(d.value), a.other), d.draws)
  }

  /**
   * `startTurn`: an unseated id changes nothing. Otherwise the player becomes active,
   * the turn counters reset, the player's part runs, the opponent takes the stats it
   * leaves, and the turn is logged.
   */
  function StartTurn(e: Engine, w: World, pid: PlayerId, now: int): (r: World)
    ensures pid !in w.state.players ==> r == w
    ensures pid in w.state.players ==>
      r.state == w.state.(activePlayerId := pid, turnState := TurnState(0, false),
        players := r.state.players, eventLog := r.state.eventLog)
      && r.state.players.Keys == w.state.players.Keys
  {
    if pid !in w.state.players then w
    else
      var m := w.state;
      var o := OpponentId(m, pid);
      var t := TurnPlayer(e, m.players[pid], OtherStats(m, o), now, w.draws);
      var players := if o.Some? then m.players[o.value := m.players[o.value].(stats := t.value.other.value)] else m.players;
      var m1 := m.(activePlayerId := pid, turnState := TurnState(0, false), players := players[pid := t.value.player]);
      LogW(World(m1, w.nextId, t.draws), TurnStarted(m.players[pid].name), now)
  }

  /** The id `endTurn` passes to `startTurn`: the next one in the turn order, wrapping. */
  function NextInTurn(order: seq<PlayerId>, pid: PlayerId): (r: Option<PlayerId>)
    ensures r.Some? <==> |order| > 0
    ensures r.Some? ==> r.value in order
  {
    if |order| == 0 then None else Some(order[(IndexOf(order, pid) + 1) % |order|])
  }

  /** `endTurn`: only the active player may end the turn; the next player's turn starts. */
  function EndTurn(e: Engine, w: World, pid: PlayerId, now: int): (r: Result<World, GameError>)
    ensures r.Failure? <==> w.state.activePlayerId != pid
    ensures r.Failure? ==> r.error == NotYourTurn
  {
    if w.state.activePlayerId != pid then Failure(NotYourTurn)
    else
      match NextInTurn(w.state.turnOrder, pid)
      case None => Success(w)
      case Some(next) => Success(StartTurn(e, w, next, now))
  }

  // ---------------------------------------------------------------------------
  // Playing a card and attacking
  // ---------------------------------------------------------------------------

  /**
   * The writes of a successful `playCard` before its victory check: pay the cost, count
   * the card, take it out of the hand, run its handler (which logs), put it on the
   * discard, and clamp both players.
   */
  function PlayEffects(w: World, pid: PlayerId, oid: PlayerId, idx: nat, now: int): (r: World)
    requires pid in w.state.players && oid in w.state.players
    requires idx < |w.state.players[pid].hand|
    ensures r.state.players.Keys == w.state.players.Keys
  {
    var m := w.state;
    var p := m.players[pid];
    var o := m.players[oid];
    var card := p.hand[idx];
    var p1 := p.(stats := p.stats.(cash := p.stats.cash - card.def.cost), hand := RemoveAt(p.hand, idx));
    var r := Resolve(card, p1, o, w.nextId);
    var logged := LogW(World(m, r.nextId, w.draws), CardResolved(card.def.slug, p.name, o.name), now);
    var p2 := r.caster.(discard := r.caster.discard + [card]);
    var m1 := logged.state.(
      turnState := m.turnState.(cardsPlayed := m.turnState.cardsPlayed + 1),
      players := m.players[pid := ClampPlayer(p2)][oid := ClampPlayer(r.target)]);
    logged.(state := m1)
  }

  /**
   * `playCard`: the checks run in the program's order and each throws before any write:
   * the caller's turn, a seated caller with an opponent, the per-turn card limit, the
   * card in hand, enough cash.
   */
  function PlayCard(e: Engine, w: World, pid: PlayerId, cardId: Ident, now: int): (r: Result<World, GameError>)
    requires forall k :: k in w.state.turnOrder ==> k in w.state.players
    ensures w.state.activePlayerId != pid ==> r == Failure(NotYourTurn)
    ensures r.Success? ==> w.state.turnState.cardsPlayed < CardsPerTurn && OpponentId(w.state, pid).Some?
    ensures r.Success? ==>
      r.value.state.players.Keys == w.state.players.Keys
      && r.value.state.turnOrder == w.state.turnOrder && r.value.state.activePlayerId == pid
      && r.value.state.turnState == w.state.turnState.(cardsPlayed := w.state.turnState.cardsPlayed + 1)
  {
    var m := w.state;
    if m.activePlayerId != pid then Failure(NotYourTurn)
    else if pid !in m.players || OpponentId(m, pid).None? then Failure(MissingOpponent)
    else if m.turnState.cardsPlayed >= CardsPerTurn then Failure(CardLimitReached)
    else
      var p := m.players[pid];
      var idx := FindCard(p.hand, cardId);
      if idx == -1 then Failure(CardNotFound)
      else if p.stats.cash < p.hand[idx].def.cost then Failure(NotEnoughCash)
      else
        var r := PlayEffects(w, pid, OpponentId(m, pid).value, idx, now);
        Success(CheckVictory(e, r, now))
  }

  /**
   * `attack`: the checks (turn, opponent, attack unused, positive GDP) throw before any
   * write; then the opponent loses the attacker's GDP in stability and is clamped.
   */
  function Attack(e: Engine, w: World, pid: PlayerId, now: int): (r: Result<World, GameError>)
    requires forall k :: k in w.state.turnOrder ==> k in w.state.players
    ensures w.state.activePlayerId != pid ==> r == Failure(NotYourTurn)
    ensures r.Success? ==> !w.state.turnState.attackUsed && OpponentId(w.state, pid).Some?
    ensures r.Success? ==>
      r.value.state.players.Keys == w.state.players.Keys
      && r.value.state.turnOrder == w.state.turnOrder && r.value.state.activePlayerId == pid
      && r.value.state.turnState == w.state.turnState.(attackUsed := true)
  {
    var m := w.state;
    if m.activePlayerId != pid then Failure(NotYourTurn)
    else if pid !in m.players || OpponentId(m, pid).None? then Failure(MissingOpponent)
    else if m.turnState.attackUsed then Failure(AttackAlreadyUsed)
    else if m.players[pid].stats.gdp <= 0 then Failure(NoGdpToAttack)
    else Success(CheckVictory(e, AttackEffects(w, pid, OpponentId(m, pid).value, now), now))
  }

  /**
   * The writes of a successful `attack` before its victory check: the opponent loses
   * the attacker's GDP in stability and is clamped, the attack is used up, and logged.
   */
  function AttackEffects(w: World, pid: PlayerId, oid: PlayerId, now: int): (r: World)
    requires pid in w.state.players && oid in w.state.players
    ensures r.state.players.Keys == w.state.players.Keys
  {
    var m := w.state;
    var p := m.players[pid];
    var o := m.players[oid];
    var hit := o.(stats := o.stats.(stability := o.stats.stability - p.stats.gdp));
    var m1 := m.(players := m.players[oid := ClampPlayer(hit)], turnState := m.turnState.(attackUsed := true));
    LogW(w.(state := m1), Attacked(p.name, p.stats.gdp), now)
  }

  // ---------------------------------------------------------------------------
  // Creating and joining
  // ---------------------------------------------------------------------------

  /**
   * `addPlayerToMatch`: a seated id changes nothing; a match with two players is full;
   * otherwise the new player is seated, appended to the turn order, and logged.
   */
  function AddPlayer(e: Engine, w: World, pid: PlayerId, name: string, now: int): (r: Result<World, GameError>)
    requires |e.catalog| > 0
    ensures pid in w.state.players ==> r == Success(w)
    ensures pid !in w.state.players ==> (r.Failure? <==> |w.state.players| >= 2)
    ensures r.Failure? ==> r.error == MatchFull
  {
    var m := w.state;
    if pid in m.players then Success(w)
    else if |m.players| >= 2 then Failure(MatchFull)
    else Success(LogW(Seated(e, w, pid, name, now), PlayerJoined(name), now))
  }

  /** The writes of a successful join before its log entry: the new player dealt in and seated last. */
  function Seated(e: Engine, w: World, pid: PlayerId, name: string, now: int): (r: World)
    requires |e.catalog| > 0
    ensures r.state == w.state.(players := r.state.players, turnOrder := w.state.turnOrder + [pid])
    ensures r.state.players.Keys == w.state.players.Keys + {pid}
    ensures r.nextId == w.nextId + StarterDeckSize
  {
    var d := CreatePlayer(e, pid, name, w.nextId, now, w.draws);
    World(w.state.(players := w.state.players[pid := d.value], turnOrder := w.state.turnOrder + [pid]),
      w.nextId + StarterDeckSize, d.draws)
  }

  /** The match `createMatchState` builds before the first turn: the host seated alone, the creation logged. */
  function Hosted(e: Engine, matchId: MatchId, hostId: PlayerId, hostName: string, nextId: Ident, now: int, draws: nat): (r: World)
    requires |e.catalog| > 0
    ensures r.state.players.Keys == {hostId} && r.state.turnOrder == [hostId]
    ensures r.state.players[hostId].stats == StartingStats && r.state.winnerId == None
    ensures |r.state.eventLog| == 1 && r.nextId == nextId + StarterDeckSize + 1
  {
    var d := CreatePlayer(e, hostId, hostName, nextId, now, draws);
    var m := MatchState(matchId, map[hostId := d.value], [hostId], hostId, None, [], TurnState(0, false));
    LogW(World(m, nextId + StarterDeckSize, d.draws), MatchCreated(hostName), now)
  }

  /** `createMatchState`: the host's first turn starts at once. */
  function CreateMatch(e: Engine, matchId: MatchId, hostId: PlayerId, hostName: string, nextId: Ident, now: int, draws: nat): (r: World)
    requires |e.catalog| > 0
    ensures r.state.id == matchId && r.state.players.Keys == {hostId} && r.state.turnOrder == [hostId]
    ensures r.state.activePlayerId == hostId && r.state.turnState == TurnState(0, false) && r.state.winnerId == None
  {
    StartTurn(e, Hosted(e, matchId, hostId, hostName, nextId, now, draws), hostId, now)
  }

  // ---------------------------------------------------------------------------
  // The invariant
  // ---------------------------------------------------------------------------

  /**
   * What every reachable match satisfies: one or two distinct seated players in turn
   * order, each stored under its own id with clamped stats; a seated active player;
   * at most CardsPerTurn cards played; a bounded log; a seated winner, if any.
   */
  ghost predicate Inv(m: MatchState)
    ensures Inv(m) ==> m.activePlayerId in m.turnOrder && |m.players| >= 1
  {
    && 1 <= |m.turnOrder| <= 2
    && (|m.turnOrder| == 2 ==> m.turnOrder[0] != m.turnOrder[1])
    && (forall k :: k in m.players <==> k in m.turnOrder)
    && (forall k :: k in m.players ==> m.players[k].id == k && InRange(m.players[k].stats))
    && m.activePlayerId in m.players
    && m.turnState.cardsPlayed <= CardsPerTurn
    && |m.eventLog| <= EventLogCap
    && (m.winnerId.Some? ==> m.winnerId.value in m.players)
  }
}
