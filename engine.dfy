/**
 * The match object as the TypeScript engine writes it: operations that update its fields in
 * place. Every method is proved to compute what the corresponding rule in MatchRules
 * describes; a player is a value inside the `players` map.
 */
module GameEngine {
  import opened Wrappers
  import opened GameTypes
  import opened PlayerRules
  import opened MatchRules
  import PlayerEngine
  import MatchLemmas

  /** A match in progress, with the supplies of fresh ids and random numbers it draws on. */
  class Match {
    const engine: Engine
    var id: MatchId
    var players: map<PlayerId, PlayerState>
    var turnOrder: seq<PlayerId>
    var activePlayerId: PlayerId
    var winnerId: Option<PlayerId>
    var eventLog: seq<GameEvent>
    var turnState: TurnState
    var nextId: Ident
    var draws: nat

    /** The match's fields as a value. */
    function State(): MatchState
      reads this
    {
      MatchState(id, players, turnOrder, activePlayerId, winnerId, eventLog, turnState)
    }

    /** The match and its supplies as a value. */
    function Snapshot(): World
      reads this
    {
      World(State(), nextId, draws)
    }

    /**
     * The invariant of a reachable match, on the fields: one or two distinct seats in
     * turn order, clamped stats, a seated active player, a bounded log. It gives every
     * public method its precondition, and every public method keeps it.
     */
    ghost predicate Valid()
      reads this
      ensures Valid() ==> forall k :: k in turnOrder ==> k in players
    {
      Inv(State())
    }

    /** `createMatchState`: seat the host, log the creation, and start the host's turn. */
    constructor (e: Engine, matchId: MatchId, hostId: PlayerId, hostName: string, firstId: Ident, now: int, firstDraw: nat)
      requires |e.catalog| > 0
      ensures engine == e
      ensures Snapshot() == CreateMatch(e, matchId, hostId, hostName, firstId, now, firstDraw)
      ensures Valid()
    {
      var host, next := PlayerEngine.CreatePlayer(e, hostId, hostName, firstId, now, firstDraw);
      engine := e;
      id := matchId;
      players := map[hostId := host];
      turnOrder := [hostId];
      activePlayerId := hostId;
      winnerId := None;
      eventLog := [];
      turnState := TurnState(0, false);
      nextId := firstId + StarterDeckSize;
      draws := next;
      new;
      Log(MatchCreated(hostName), now);
      StartTurn(hostId, now);
      MatchLemmas.CreateMatchOutcome(e, matchId, hostId, hostName, firstId, now, firstDraw);
    }

    /** `log`: prepend an entry under the next fresh id and keep the newest EventLogCap. */
    method Log(msg: Message, now: int)
      modifies this
      ensures Snapshot() == LogW(old(Snapshot()), msg, now)
    {
      eventLog := [GameEvent(nextId, msg, now)] + eventLog;
      if |eventLog| > EventLogCap {
        eventLog := eventLog[..EventLogCap];
      }
      nextId := nextId + 1;
    }

    /** Record a verdict: the winner's id, then the victory entry. */
    method Declare(v: Verdict, now: int)
      requires VerdictKey(v) in players
      modifies this
      ensures Snapshot() == MatchRules.Declare(old(Snapshot()), v, now)
    {
      var p := players[VerdictKey(v)];
      winnerId := Some(p.id);
      match v
      case Economic(_) => Log(EconomicVictory(p.name), now);
      case Domination(_) => Log(DominationVictory(p.name), now);
    }

    /**
     * `checkVictory`: nothing once a winner is recorded. The client clamps everyone and
     * looks for a happy player before it looks for a dominant one; the server looks at
     * each player in turn for both.
     */
    method CheckVictory(now: int)
      requires forall k :: k in turnOrder ==> k in players
      modifies this
      ensures Snapshot() == MatchRules.CheckVictory(engine, old(Snapshot()), now)
      ensures old(Valid()) ==> Valid()
    {
      if Valid() {
        MatchLemmas.CheckVictoryOutcome(engine, Snapshot(), now);
      }
      if winnerId.Some? && winnerId.value != "" {
        return;
      }
      var v: Option<Verdict>;
      ghost var w := Snapshot();
      match engine.copy {
        case Client(_, _) =>
          players := ClampAll(players);
          assert Snapshot() == w.(state := w.state.(players := ClampAll(w.state.players)));
          v := ClientSearch(State());
        case Server(_) =>
          v := ServerSearch(State());
      }
      if v.Some? {
        Declare(v.value, now);
      }
    }

    /**
     * `startTurn`: make the player active with fresh counters, pay the turn's cash,
     * tick the board, refill the hand, clamp, and log. An unseated id changes nothing.
     */
    method StartTurn(pid: PlayerId, now: int)
      modifies this
      ensures Snapshot() == MatchRules.StartTurn(engine, old(Snapshot()), pid, now)
      ensures old(Valid()) ==> Valid()
    {
      if Valid() {
        MatchLemmas.StartTurnKeepsInv(engine, Snapshot(), pid, now);
      }
      if pid !in players {
        return;
      }
      var o := OpponentId(State(), pid);
      var name := players[pid].name;
      var a, next := TakeTurn(engine, players[pid], OtherStats(State(), o), now, draws);
      activePlayerId := pid;
      turnState := TurnState(0, false);
      if o.Some? {
        players := players[o.value := players[o.value].(stats := a.other.value)];
      }
      players := players[pid := a.player];
      draws := next;
      Log(TurnStarted(name), now);
    }

    /** `endTurn`: only the active player may; the next seat in turn order starts its turn. */
    method EndTurn(pid: PlayerId, now: int) returns (r: Outcome<GameError>)
      modifies this
      ensures var x := MatchRules.EndTurn(engine, old(Snapshot()), pid, now);
        && (x.Failure? ==> r == Fail(x.error) && Snapshot() == old(Snapshot()))
        && (x.Success? ==> r == Pass && Snapshot() == x.value)
      ensures old(Valid()) ==> Valid()
    {
      if activePlayerId != pid {
        return Fail(NotYourTurn);
      }
      var next := NextInTurn(turnOrder, pid);
      if next.Some? {
        StartTurn(next.value, now);
      }
      r := Pass;
    }

    /**
     * `playCard`: check the turn, the opponent, the card limit, the card and the cash,
     * in that order; then pay, count, take the card from the hand, run its handler, put
     * it on the discard, clamp both players, and check for victory.
     */
    method PlayCard(pid: PlayerId, cardId: Ident, now: int) returns (r: Outcome<GameError>)
      requires forall k :: k in turnOrder ==> k in players
      modifies this
      ensures var x := MatchRules.PlayCard(engine, old(Snapshot()), pid, cardId, now);
        && (x.Failure? ==> r == Fail(x.error) && Snapshot() == old(Snapshot()))
        && (x.Success? ==> r == Pass && Snapshot() == x.value)
      ensures old(Valid()) ==> Valid()
    {
      if Valid() {
        MatchLemmas.PlayCardKeepsInv(engine, Snapshot(), pid, cardId, now);
      }
      if activePlayerId != pid {
        return Fail(NotYourTurn);
      }
      var opp := OpponentId(State(), pid);
      if pid !in players || opp.None? {
        return Fail(MissingOpponent);
      }
      if turnState.cardsPlayed >= CardsPerTurn {
        return Fail(CardLimitReached);
      }
      var p := players[pid];
      var cardIndex := FindCard(p.hand, cardId);
      if cardIndex == -1 {
        return Fail(CardNotFound);
      }
      var card := p.hand[cardIndex];
      if p.stats.cash < card.def.cost {
        return Fail(NotEnoughCash);
      }
      ApplyPlay(pid, opp.value, cardIndex, now);
      CheckVictory(now);
      r := Pass;
    }

    /** The writes of a successful `playCard`, up to its victory check. */
    method ApplyPlay(pid: PlayerId, oid: PlayerId, idx: nat, now: int)
      requires pid in players && oid in players
      requires idx < |players[pid].hand|
      modifies this
      ensures Snapshot() == PlayEffects(old(Snapshot()), pid, oid, idx, now)
    {
      var p := players[pid];
      var o := players[oid];
      var card := p.hand[idx];
      p := p.(stats := p.stats.(cash := p.stats.cash - card.def.cost), hand := RemoveAt(p.hand, idx));
      var resolved := Resolve(card, p, o, nextId);
      nextId := resolved.nextId;
      Log(CardResolved(card.def.slug, p.name, o.name), now);
      turnState := turnState.(cardsPlayed := turnState.cardsPlayed + 1);
      p := resolved.caster.(discard := resolved.caster.discard + [card]);
      players := players[pid := ClampPlayer(p)][oid := ClampPlayer(resolved.target)];
    }

    /**
     * `attack`: check the turn, the opponent, the unused attack and positive GDP, in
     * that order; then take the attacker's GDP off the opponent's stability, use up the
     * attack, clamp the opponent, log, and check for victory.
     */
    method Attack(pid: PlayerId, now: int) returns (r: Outcome<GameError>)
      requires forall k :: k in turnOrder ==> k in players
      modifies this
      ensures var x := MatchRules.Attack(engine, old(Snapshot()), pid, now);
        && (x.Failure? ==> r == Fail(x.error) && Snapshot() == old(Snapshot()))
        && (x.Success? ==> r == Pass && Snapshot() == x.value)
      ensures old(Valid()) ==> Valid()
    {
      if Valid() {
        MatchLemmas.AttackOutcome(engine, Snapshot(), pid, now);
      }
      if activePlayerId != pid {
        return Fail(NotYourTurn);
      }
      var opp := OpponentId(State(), pid);
      if pid !in players || opp.None? {
        return Fail(MissingOpponent);
      }
      if turnState.attackUsed {
        return Fail(AttackAlreadyUsed);
      }
      var p := players[pid];
      if p.stats.gdp <= 0 {
        return Fail(NoGdpToAttack);
      }
      ghost var w := Snapshot();
      var oid := opp.value;
      var o := players[oid];
      o := o.(stats := o.stats.(stability := o.stats.stability - p.stats.gdp));
      turnState := turnState.(attackUsed := true);
      players := players[oid := ClampPlayer(o)];
      Log(Attacked(p.name, p.stats.gdp), now);
      assert Snapshot() == AttackEffects(w, pid, oid, now);
      CheckVictory(now);
      r := Pass;
    }

    /**
     * `addPlayerToMatch`: a seated id is a no-op, a match of two is full; otherwise the
     * new player is dealt in, seated last in turn order, and logged.
     */
    method AddPlayer(pid: PlayerId, name: string, now: int) returns (r: Outcome<GameError>)
      requires |engine.catalog| > 0
      modifies this
      ensures var x := MatchRules.AddPlayer(engine, old(Snapshot()), pid, name, now);
        && (x.Failure? ==> r == Fail(x.error) && Snapshot() == old(Snapshot()))
        && (x.Success? ==> r == Pass && Snapshot() == x.value)
      ensures old(Valid()) ==> Valid()
    {
      if Valid() {
        MatchLemmas.AddPlayerKeepsInv(engine, Snapshot(), pid, name, now);
      }
      if pid in players {
        return Pass;
      }
      if |players| >= 2 {
        return Fail(MatchFull);
      }
      Seat(pid, name, now);
      r := Pass;
    }
    /** The writes of a successful `addPlayerToMatch`: deal the player in, seat them last, log. */
    method Seat(pid: PlayerId, name: string, now: int)
      requires |engine.catalog| > 0
      requires pid !in players && |players| < 2
      modifies this
      ensures Snapshot() == MatchRules.AddPlayer(engine, old(Snapshot()), pid, name, now).value
    {
      ghost var w := Snapshot();
      ghost var joined := MatchRules.AddPlayer(engine, w, pid, name, now);
      ghost var seated := MatchRules.Seated(engine, w, pid, name, now);
      assert joined == Success(LogW(seated, PlayerJoined(name), now));
      var p, next := PlayerEngine.CreatePlayer(engine, pid, name, nextId, now, draws);
      assert seated
        == w.(state := w.state.(players := w.state.players[pid := p], turnOrder := w.state.turnOrder + [pid]),
              nextId := w.nextId + StarterDeckSize, draws := next);
      Place(pid, p, next);
      assert Snapshot() == seated;
      Log(PlayerJoined(name), now);
    }

    /** Store a dealt player under its id, append it to the turn order, and take up its supplies. */
    method Place(pid: PlayerId, p: PlayerState, next: nat)
      modifies this
      ensures Snapshot() == old(Snapshot()).(
        state := old(State()).(players := old(players)[pid := p], turnOrder := old(turnOrder) + [pid]),
        nextId := old(nextId) + StarterDeckSize, draws := next)
    {
      players := players[pid := p];
      turnOrder := turnOrder + [pid];
      nextId := nextId + StarterDeckSize;
      draws := next;
    }
  }

  /** The client's two passes of `checkVictory`: everybody for happiness, then everybody for domination. */
  method ClientSearch(m: MatchState) returns (v: Option<Verdict>)
    requires forall k :: k in m.turnOrder ==> k in m.players
    ensures v == ClientVerdict(m)
  {
    var order := m.turnOrder;
    for i := 0 to |order|
      invariant FirstEconomic(m, order[i..]) == FirstEconomic(m, order)
    {
      assert order[i..][1..] == order[i + 1..];
      if m.players[order[i]].stats.happiness >= VictoryHappiness {
        return Some(Economic(order[i]));
      }
    }
    for i := 0 to |order|
      invariant FirstDomination(m, order[i..]) == FirstDomination(m, order)
    {
      assert order[i..][1..] == order[i + 1..];
      var o := OpponentId(m, m.players[order[i]].id);
      if o.Some? && m.players[o.value].stats.stability <= DominationStability {
        return Some(Domination(order[i]));
      }
    }
    return None;
  }

  /** The server's single pass of `checkVictory`: each player for happiness, then for domination. */
  method ServerSearch(m: MatchState) returns (v: Option<Verdict>)
    requires forall k :: k in m.turnOrder ==> k in m.players
    ensures v == ServerVerdict(m, m.turnOrder)
  {
    var order := m.turnOrder;
    for i := 0 to |order|
      invariant ServerVerdict(m, order[i..]) == ServerVerdict(m, order)
    {
      assert order[i..][1..] == order[i + 1..];
      var p := m.players[order[i]];
      if p.stats.happiness >= VictoryHappiness {
        return Some(Economic(order[i]));
      }
      var o := OpponentId(m, p.id);
      if o.Some? && m.players[o.value].stats.stability <= DominationStability {
        return Some(Domination(order[i]));
      }
    }
    return None;
  }

  /** The player's part of `startTurn`: the cash, the board, the hand, the clamp. */
  method TakeTurn(e: Engine, p: PlayerState, other: Option<Stats>, now: int, draws: nat) returns (r: Applied, next: nat)
    ensures Drawn(r, next) == TurnPlayer(e, p, other, now, draws)
  {
    var q := p.(stats := p.stats.(cash := p.stats.cash + CashGainPerTurn));
    var a := PlayerEngine.ApplyBoardEffects(q, other);
    q := a.player;
    next := draws;
    if |q.hand| < HandSize {
      q, next := PlayerEngine.DrawCards(e, q, HandSize - |q.hand|, now, draws);
    }
    r := Applied(ClampPlayer(q), a.other);
  }
}
