/**
 * Properties of the match rules: the invariant every public operation preserves, what
 * each operation guarantees, the scenarios the engine's own tests walk through, and
 * where the two copies' victory checks disagree.
 */
module MatchLemmas {
  import opened Wrappers
  import opened GameTypes
  import opened PlayerRules
  import opened MatchRules
  import PlayerLemmas

  // ---------------------------------------------------------------------------
  // Seats and opponents
  // ---------------------------------------------------------------------------

  /** Under the invariant every id in the turn order is seated. */
  lemma OrderSeated(m: MatchState)
    requires Inv(m)
    ensures forall k :: k in m.turnOrder ==> k in m.players
  {
  }

  /**
   * Under the invariant the opponent of a seated player is the other seat, when there
   * is one and its id is not empty; a lone player has none.
   */
  lemma OpponentIsOtherSeat(m: MatchState, pid: PlayerId)
    requires Inv(m) && pid in m.players
    ensures |m.turnOrder| == 1 ==> OpponentId(m, pid).None?
    ensures |m.turnOrder| == 2 && pid == m.turnOrder[0] ==>
      OpponentId(m, pid) == (if m.turnOrder[1] != "" then Some(m.turnOrder[1]) else None)
    ensures |m.turnOrder| == 2 && pid == m.turnOrder[1] ==>
      OpponentId(m, pid) == (if m.turnOrder[0] != "" then Some(m.turnOrder[0]) else None)
  {
    var t := m.turnOrder;
    assert pid in t;
    if |t| == 2 {
      assert t[1..] == [t[1]] && t[1..][1..] == [];
    } else {
      assert t == [pid] && t[1..] == [];
    }
  }

  // ---------------------------------------------------------------------------
  // Victory
  // ---------------------------------------------------------------------------

  /** Clamping every player changes nothing when every player is already in range. */
  lemma ClampAllInRange(players: map<PlayerId, PlayerState>)
    requires forall k :: k in players ==> InRange(players[k].stats)
    ensures ClampAll(players) == players
  {
  }

  /** The verdict the given copy reaches on a match whose players are all in range. */
  function VerdictOf(e: Engine, m: MatchState): Option<Verdict>
  {
    match e.copy
    case Client(_, _) => ClientVerdict(m)
    case Server(_) => ServerVerdict(m, m.turnOrder)
  }

  /**
   * `checkVictory` on a match satisfying the invariant: a recorded winner freezes
   * everything; otherwise the named player (if any) becomes the winner and one entry is
   * logged. Players, seats, the active player and the turn counters never change, and
   * the invariant is kept.
   */
  lemma CheckVictoryOutcome(e: Engine, w: World, now: int)
    requires Inv(w.state)
    ensures var r := CheckVictory(e, w, now);
      && Inv(r.state)
      && r.state == w.state.(winnerId := r.state.winnerId, eventLog := r.state.eventLog)
      && r.draws == w.draws
      && (Truthy(w.state.winnerId) ==> r == w)
      && (!Truthy(w.state.winnerId) && VerdictOf(e, w.state).None? ==> r == w)
      && (!Truthy(w.state.winnerId) && VerdictOf(e, w.state).Some? ==>
        && r.state.winnerId == Some(VerdictKey(VerdictOf(e, w.state).value))
        && |r.state.eventLog| == Min(EventLogCap, |w.state.eventLog| + 1)
        && r.nextId == w.nextId + 1)
  {
    OrderSeated(w.state);
    ClampAllInRange(w.state.players);
    assert w.state.(players := ClampAll(w.state.players)) == w.state;
  }

  /**
   * The client tests happiness for every player before it tests domination for any:
   * when someone has VictoryHappiness, an economic verdict is reached, for the first
   * such player in seat order, whatever the stabilities.
   */
  lemma {:induction false} ClientEconomicFirst(m: MatchState, i: nat)
    requires i < |m.turnOrder| && WinsEconomically(m, m.turnOrder[i])
    requires forall j :: 0 <= j < i ==> !WinsEconomically(m, m.turnOrder[j])
    ensures ClientVerdict(m) == Some(Economic(m.turnOrder[i]))
  {
    FirstEconomicAt(m, m.turnOrder, i);
  }

  lemma {:induction false} FirstEconomicAt(m: MatchState, order: seq<PlayerId>, i: nat)
    requires i < |order| && WinsEconomically(m, order[i])
    requires forall j :: 0 <= j < i ==> !WinsEconomically(m, order[j])
    ensures FirstEconomic(m, order) == Some(order[i])
    decreases i
  {
    if i > 0 {
      assert !WinsEconomically(m, order[0]);
      FirstEconomicAt(m, order[1..], i - 1);
    }
  }

  /** The client's domination pass names the first seat, in order, whose opponent is beaten. */
  lemma {:induction false} FirstDominationAt(m: MatchState, order: seq<PlayerId>, i: nat)
    requires i < |order| && WinsByDomination(m, order[i])
    requires forall j :: 0 <= j < i ==> !WinsByDomination(m, order[j])
    ensures FirstDomination(m, order) == Some(order[i])
    decreases i
  {
    if i > 0 {
      assert !WinsByDomination(m, order[0]);
      FirstDominationAt(m, order[1..], i - 1);
    }
  }

  /** A seat passes neither of the server's tests. */
  predicate PassesNeither(m: MatchState, key: PlayerId)
  {
    !WinsEconomically(m, key) && !WinsByDomination(m, key)
  }

  /**
   * What the server's verdict means over any order: there is none exactly when no seat
   * passes either test; otherwise it names a seat at some position all of whose
   * predecessors pass neither test, Economic when that seat is happy and Domination
   * only when it is not happy but its opponent is beaten.
   */
  lemma {:induction false} ServerVerdictMeaning(m: MatchState, order: seq<PlayerId>)
    ensures var v := ServerVerdict(m, order);
      && (v.None? <==> forall i :: 0 <= i < |order| ==> PassesNeither(m, order[i]))
      && (v.Some? ==>
            exists i :: 0 <= i < |order| && order[i] == VerdictKey(v.value) && forall j :: 0 <= j < i ==> PassesNeither(m, order[j]))
      && (v.Some? && v.value.Economic? ==> WinsEconomically(m, v.value.key))
      && (v.Some? && v.value.Domination? ==> !WinsEconomically(m, v.value.key) && WinsByDomination(m, v.value.key))
    decreases |order|
  {
    if |order| > 0 && PassesNeither(m, order[0]) {
      var rest := order[1..];
      ServerVerdictMeaning(m, rest);
      var v := ServerVerdict(m, rest);
      assert ServerVerdict(m, order) == v;
      if v.None? {
        forall i | 0 <= i < |order|
          ensures PassesNeither(m, order[i])
        {
          if i > 0 {
            assert order[i] == rest[i - 1];
          }
        }
      } else {
        var i :| 0 <= i < |rest| && rest[i] == VerdictKey(v.value) && forall j :: 0 <= j < i ==> PassesNeither(m, rest[j]);
        assert order[i + 1] == VerdictKey(v.value);
        forall j | 0 <= j < i + 1
          ensures PassesNeither(m, order[j])
        {
          if j > 0 {
            assert order[j] == rest[j - 1];
          }
        }
      }
    } else if |order| > 0 {
      assert ServerVerdict(m, order).Some? && VerdictKey(ServerVerdict(m, order).value) == order[0];
    }
  }

  /**
   * The server names the first seat, in order, that passes either test: by happiness
   * when it is happy, and by domination otherwise.
   */
  lemma {:induction false} ServerVerdictAt(m: MatchState, order: seq<PlayerId>, i: nat)
    requires i < |order| && !PassesNeither(m, order[i])
    requires forall j :: 0 <= j < i ==> PassesNeither(m, order[j])
    ensures WinsEconomically(m, order[i]) ==> ServerVerdict(m, order) == Some(Economic(order[i]))
    ensures !WinsEconomically(m, order[i]) ==> ServerVerdict(m, order) == Some(Domination(order[i]))
    decreases i
  {
    if i > 0 {
      assert PassesNeither(m, order[0]);
      ServerVerdictAt(m, order[1..], i - 1);
    }
  }

  /**
   * The server tests each player for happiness and then domination before moving on,
   * so a player earlier in seat order who dominates wins before a later player with
   * VictoryHappiness.
   */
  lemma ServerDominationFirst(m: MatchState)
    requires |m.turnOrder| == 2
    requires !WinsEconomically(m, m.turnOrder[0]) && WinsByDomination(m, m.turnOrder[0])
    ensures ServerVerdict(m, m.turnOrder) == Some(Domination(m.turnOrder[0]))
  {
  }

  /**
   * The two copies can crown different winners from the same position: the host
   * (seated first) has beaten the guest's stability down to zero while the guest has
   * reached VictoryHappiness. The client names the guest, the server the host.
   */
  lemma CopiesDisagree(host: PlayerState, guest: PlayerState)
    requires host.id == "host" && guest.id == "guest"
    requires host.stats == Stats(10, 50, 10, 50) && guest.stats == Stats(10, 0, 10, 120)
    ensures var m := MatchState("m", map["host" := host, "guest" := guest], ["host", "guest"], "host",
        None, [], TurnState(0, false));
      && Inv(m)
      && ClientVerdict(m) == Some(Economic("guest"))
      && ServerVerdict(m, m.turnOrder) == Some(Domination("host"))
  {
    var m := MatchState("m", map["host" := host, "guest" := guest], ["host", "guest"], "host",
      None, [], TurnState(0, false));
    assert m.turnOrder[1..] == ["guest"];
    assert OpponentId(m, "host") == Some("guest");
    assert !WinsEconomically(m, "host") && WinsEconomically(m, "guest");
    ClientEconomicFirst(m, 1);
  }

  // ---------------------------------------------------------------------------
  // Turns
  // ---------------------------------------------------------------------------

  /**
   * The player's part of a turn start keeps every card, refills a short hand to
   * HandSize (or as far as deck and discard allow), and leaves a full hand alone.
   */
  lemma TurnPlayerDeals(e: Engine, p: PlayerState, other: Option<Stats>, now: int, draws: nat)
    ensures var r := TurnPlayer(e, p, other, now, draws).value.player;
      && PlayerLemmas.Cards(r) == PlayerLemmas.Cards(p)
      && |r.hand| == (if |p.hand| >= HandSize then |p.hand| else Min(HandSize, |p.hand| + |p.deck| + |p.discard|))
  {
    var p1 := p.(stats := p.stats.(cash := p.stats.cash + CashGainPerTurn));
    var a := ApplyBoardEffects(p1, other);
    PlayerLemmas.DrawToHandCapFills(e, a.player, now, draws);
  }

  /** With an empty board, the player's part of a turn start adds exactly CashGainPerTurn to cash. */
  lemma TurnPlayerPaysCash(e: Engine, p: PlayerState, other: Option<Stats>, now: int, draws: nat)
    requires InRange(p.stats) && p.board == Board([], [])
    ensures TurnPlayer(e, p, other, now, draws).value.player.stats == p.stats.(cash := p.stats.cash + CashGainPerTurn)
    ensures TurnPlayer(e, p, other, now, draws).value.other == other
  {
    var p1 := p.(stats := p.stats.(cash := p.stats.cash + CashGainPerTurn));
    var a := ApplyBoardEffects(p1, other);
    assert a.player.stats == p1.stats && a.other == other;
    var d := DrawToHandCap(e, a.player, now, draws);
    assert d.value.stats == a.player.stats;
  }

  /**
   * `startTurn` on a seated player: the player becomes active with fresh turn counters
   * and takes the player's part; seats and the winner stay; one entry is logged.
   */
  lemma StartTurnOutcome(e: Engine, w: World, pid: PlayerId, now: int)
    requires pid in w.state.players
    ensures var r := StartTurn(e, w, pid, now).state;
      var m := w.state;
      && r.players.Keys == m.players.Keys
      && r.turnOrder == m.turnOrder && r.winnerId == m.winnerId && r.id == m.id
      && r.activePlayerId == pid && r.turnState == TurnState(0, false)
      && r.players[pid] == TurnPlayer(e, m.players[pid], OtherStats(m, OpponentId(m, pid)), now, w.draws).value.player
      && |r.eventLog| == Min(EventLogCap, |m.eventLog| + 1)
      && r.eventLog[0].message == TurnStarted(m.players[pid].name)
  {
  }

  /** A turn start can lower the other players' GDP (never below zero) and changes nothing else of theirs. */
  lemma StartTurnSparesOthers(e: Engine, w: World, pid: PlayerId, now: int)
    requires pid in w.state.players
    ensures var r := StartTurn(e, w, pid, now).state;
      var m := w.state;
      forall k :: k in m.players && k != pid ==>
        && k in r.players
        && r.players[k] == m.players[k].(stats := m.players[k].stats.(gdp := r.players[k].stats.gdp))
        && (m.players[k].stats.gdp >= 0 ==> r.players[k].stats.gdp >= 0)
  {
  }

  /** A turn start keeps the invariant. */
  lemma StartTurnKeepsInv(e: Engine, w: World, pid: PlayerId, now: int)
    requires Inv(w.state)
    ensures Inv(StartTurn(e, w, pid, now).state)
  {
    if pid in w.state.players {
      StartTurnOutcome(e, w, pid, now);
      StartTurnSparesOthers(e, w, pid, now);
      var r := StartTurn(e, w, pid, now).state;
      assert forall k :: k in r.players ==> r.players[k].id == k && InRange(r.players[k].stats);
    }
  }

  /** With an empty board, a turn start adds exactly CashGainPerTurn to the player's cash. */
  lemma StartTurnPaysCash(e: Engine, w: World, pid: PlayerId, now: int)
    requires Inv(w.state) && pid in w.state.players
    requires w.state.players[pid].board == Board([], [])
    ensures var p := w.state.players[pid];
      StartTurn(e, w, pid, now).state.players[pid].stats == p.stats.(cash := p.stats.cash + CashGainPerTurn)
  {
    StartTurnOutcome(e, w, pid, now);
    TurnPlayerPaysCash(e, w.state.players[pid], OtherStats(w.state, OpponentId(w.state, pid)), now, w.draws);
  }

  /** The seat after `pid`: the other seat of two, or the same seat when alone. */
  function NextSeat(t: seq<PlayerId>, pid: PlayerId): PlayerId
    requires |t| > 0
  {
    if |t| == 1 then pid else if pid == t[0] then t[1] else t[0]
  }

  /** `(indexOf + 1) % length` names the next seat, wrapping round. */
  lemma NextInTurnRotates(t: seq<PlayerId>, pid: PlayerId)
    requires 1 <= |t| <= 2 && pid in t
    ensures NextInTurn(t, pid) == Some(NextSeat(t, pid))
  {
    if |t| == 2 {
      assert t[1..] == [t[1]];
      if pid == t[0] {
        assert IndexOf(t, pid) == 0;
      } else {
        assert IndexOf(t, pid) == 1;
      }
    } else {
      assert t == [t[0]];
      assert IndexOf(t, pid) == 0;
    }
  }

  /**
   * `endTurn` by the active player hands the turn to the other seat, or back to a lone
   * player, and keeps the invariant; anyone else is refused with nothing changed.
   */
  lemma EndTurnRotates(e: Engine, w: World, pid: PlayerId, now: int)
    requires Inv(w.state)
    ensures var r := EndTurn(e, w, pid, now);
      && (r.Failure? <==> pid != w.state.activePlayerId)
      && (r.Success? ==>
        && Inv(r.value.state)
        && r.value.state.turnOrder == w.state.turnOrder
        && r.value.state.activePlayerId == NextSeat(w.state.turnOrder, pid)
        && r.value.state.turnState == TurnState(0, false))
  {
    if pid == w.state.activePlayerId {
      NextInTurnRotates(w.state.turnOrder, pid);
      var next := NextSeat(w.state.turnOrder, pid);
      assert EndTurn(e, w, pid, now) == Success(StartTurn(e, w, next, now));
      StartTurnOutcome(e, w, next, now);
      StartTurnKeepsInv(e, w, next, now);
    }
  }

  // ---------------------------------------------------------------------------
  // Playing a card
  // ---------------------------------------------------------------------------

  /** The index of the card `playCard` finds when the call succeeds. */
  predicate CanPlay(w: World, pid: PlayerId, cardId: Ident)
  {
    var m := w.state;
    && m.activePlayerId == pid
    && pid in m.players
    && OpponentId(m, pid).Some?
    && m.turnState.cardsPlayed < CardsPerTurn
    && FindCard(m.players[pid].hand, cardId) >= 0
    && m.players[pid].stats.cash >= m.players[pid].hand[FindCard(m.players[pid].hand, cardId)].def.cost
  }

  /**
   * The checks of `playCard` and their order: each error is thrown exactly when every
   * earlier check passed and its own failed, and the call succeeds exactly when all pass.
   */
  lemma PlayCardChecks(e: Engine, w: World, pid: PlayerId, cardId: Ident, now: int)
    requires forall k :: k in w.state.turnOrder ==> k in w.state.players
    ensures var r := PlayCard(e, w, pid, cardId, now);
      var m := w.state;
      && (r.Success? <==> CanPlay(w, pid, cardId))
      && (r == Failure(NotYourTurn) <==> m.activePlayerId != pid)
      && (r == Failure(MissingOpponent) <==>
            m.activePlayerId == pid && (pid !in m.players || OpponentId(m, pid).None?))
      && (r == Failure(CardLimitReached) <==>
            m.activePlayerId == pid && pid in m.players && OpponentId(m, pid).Some?
            && m.turnState.cardsPlayed >= CardsPerTurn)
      && (r == Failure(CardNotFound) <==>
            m.activePlayerId == pid && pid in m.players && OpponentId(m, pid).Some?
            && m.turnState.cardsPlayed < CardsPerTurn
            && forall k :: 0 <= k < |m.players[pid].hand| ==> m.players[pid].hand[k].instanceId != cardId)
      && (r.Failure? ==> r.error in {NotYourTurn, MissingOpponent, CardLimitReached, CardNotFound, NotEnoughCash})
  {
  }

  /**
   * The writes of a card play: only the two players, the log and the turn counters
   * change; the counter rises by one, and one entry naming the card, the caster and the
   * target is logged.
   */
  lemma PlayEffectsShape(w: World, pid: PlayerId, oid: PlayerId, idx: nat, now: int)
    requires pid in w.state.players && oid in w.state.players && pid != oid
    requires idx < |w.state.players[pid].hand|
    ensures var m := w.state;
      var r := PlayEffects(w, pid, oid, idx, now).state;
      var card := m.players[pid].hand[idx];
      && r == m.(players := r.players, eventLog := r.eventLog, turnState := r.turnState)
      && r.turnState == m.turnState.(cardsPlayed := m.turnState.cardsPlayed + 1)
      && r.players == m.players[pid := r.players[pid]][oid := r.players[oid]]
      && |r.eventLog| == Min(EventLogCap, |m.eventLog| + 1)
      && r.eventLog[0].message == CardResolved(card.def.slug, m.players[pid].name, m.players[oid].name)
  {
  }

  /**
   * In a card play the card leaves the hand for the discard, nothing else moves between
   * zones, every card of the caster is kept, and the target's cards stay where they are.
   * Both players keep their ids and end in range.
   */
  lemma PlayEffectsZones(w: World, pid: PlayerId, oid: PlayerId, idx: nat, now: int)
    requires pid in w.state.players && oid in w.state.players && pid != oid
    requires idx < |w.state.players[pid].hand|
    ensures var m := w.state;
      var r := PlayEffects(w, pid, oid, idx, now).state;
      var p := m.players[pid];
      var o := m.players[oid];
      && r.players[pid] == p.(stats := r.players[pid].stats, board := r.players[pid].board,
           hand := RemoveAt(p.hand, idx), discard := p.discard + [p.hand[idx]])
      && PlayerLemmas.Cards(r.players[pid]) == PlayerLemmas.Cards(p)
      && r.players[oid] == o.(stats := r.players[oid].stats, board := r.players[oid].board)
      && InRange(r.players[pid].stats) && InRange(r.players[oid].stats)
  {
    var p := w.state.players[pid];
    var card := p.hand[idx];
    assert multiset(RemoveAt(p.hand, idx)) + multiset{card} == multiset(p.hand);
  }

  /** A card play's writes keep the invariant when the card limit had not been reached. */
  lemma PlayEffectsKeepInv(w: World, pid: PlayerId, oid: PlayerId, idx: nat, now: int)
    requires Inv(w.state) && pid in w.state.players && oid in w.state.players && pid != oid
    requires idx < |w.state.players[pid].hand|
    requires w.state.turnState.cardsPlayed < CardsPerTurn
    ensures Inv(PlayEffects(w, pid, oid, idx, now).state)
  {
    PlayEffectsShape(w, pid, oid, idx, now);
    PlayEffectsZones(w, pid, oid, idx, now);
  }

  /**
   * What the handler table does to the two players' stats and boards in a card play:
   * a stat card adds its changes (to the caster's stats after paying) and clamps; a
   * board card leaves the stats (after paying) alone and appends its slot to the
   * caster's or the target's board.
   */
  lemma PlayEffectsStats(w: World, pid: PlayerId, oid: PlayerId, idx: nat, now: int)
    requires Inv(w.state) && pid in w.state.players && oid in w.state.players && pid != oid
    requires idx < |w.state.players[pid].hand|
    requires w.state.players[pid].stats.cash >= w.state.players[pid].hand[idx].def.cost
    ensures var m := w.state;
      var r := PlayEffects(w, pid, oid, idx, now);
      var p := m.players[pid];
      var o := m.players[oid];
      var card := p.hand[idx];
      var paid := p.stats.(cash := p.stats.cash - card.def.cost);
      match HandlerFor(card.def.slug)
      case Adjust(dc, dt) =>
        && r.state.players[pid].stats == Clamp(Plus(paid, dc)) && r.state.players[pid].board == p.board
        && r.state.players[oid].stats == Clamp(Plus(o.stats, dt)) && r.state.players[oid].board == o.board
        && r.nextId == w.nextId + 1
      case Place(onTarget, kind, ov) =>
        && r.state.players[pid].stats == paid && r.state.players[oid].stats == o.stats
        && (if onTarget
            then (r.state.players[pid].board == p.board
                  && r.state.players[oid].board == AddToBoard(o, card, kind, ov, w.nextId).board)
            else (r.state.players[pid].board == AddToBoard(p, card, kind, ov, w.nextId).board
                  && r.state.players[oid].board == o.board))
        && r.nextId == w.nextId + 3
  {
    var p := w.state.players[pid];
    var card := p.hand[idx];
    var paid := p.stats.(cash := p.stats.cash - card.def.cost);
    assert InRange(paid);
  }

  /** The index and opponent `playCard` works with when it succeeds. */
  lemma PlayCardUnfolds(e: Engine, w: World, pid: PlayerId, cardId: Ident, now: int)
    requires forall k :: k in w.state.turnOrder ==> k in w.state.players
    requires CanPlay(w, pid, cardId)
    ensures var oid := OpponentId(w.state, pid).value;
      var idx := FindCard(w.state.players[pid].hand, cardId);
      PlayCard(e, w, pid, cardId, now) == Success(CheckVictory(e, PlayEffects(w, pid, oid, idx, now), now))
  {
  }

  /** A card play keeps the invariant, on either copy. */
  lemma PlayCardKeepsInv(e: Engine, w: World, pid: PlayerId, cardId: Ident, now: int)
    requires Inv(w.state)
    ensures PlayCard(e, w, pid, cardId, now).Success? ==> Inv(PlayCard(e, w, pid, cardId, now).value.state)
  {
    if CanPlay(w, pid, cardId) {
      var oid := OpponentId(w.state, pid).value;
      var idx := FindCard(w.state.players[pid].hand, cardId);
      PlayCardUnfolds(e, w, pid, cardId, now);
      PlayEffectsKeepInv(w, pid, oid, idx, now);
      CheckVictoryOutcome(e, PlayEffects(w, pid, oid, idx, now), now);
    }
  }

  /**
   * A successful card play ends with the players its writes leave (the victory check
   * only records a winner and logs), and the winner is the verdict on that position
   * when none was recorded.
   */
  lemma PlayCardOutcome(e: Engine, w: World, pid: PlayerId, cardId: Ident, now: int)
    requires Inv(w.state) && CanPlay(w, pid, cardId)
    ensures var oid := OpponentId(w.state, pid).value;
      var idx := FindCard(w.state.players[pid].hand, cardId);
      var mid := PlayEffects(w, pid, oid, idx, now);
      var r := PlayCard(e, w, pid, cardId, now);
      && r.Success?
      && r.value.state.players == mid.state.players
      && r.value.state.turnState == mid.state.turnState
      && (Truthy(w.state.winnerId) ==> r.value.state.winnerId == w.state.winnerId)
      && (!Truthy(w.state.winnerId) && VerdictOf(e, mid.state).Some? ==>
            r.value.state.winnerId == Some(VerdictKey(VerdictOf(e, mid.state).value)))
  {
    var oid := OpponentId(w.state, pid).value;
    var idx := FindCard(w.state.players[pid].hand, cardId);
    PlayCardUnfolds(e, w, pid, cardId, now);
    PlayEffectsKeepInv(w, pid, oid, idx, now);
    PlayEffectsShape(w, pid, oid, idx, now);
    CheckVictoryOutcome(e, PlayEffects(w, pid, oid, idx, now), now);
  }

  // ---------------------------------------------------------------------------
  // Attacking
  // ---------------------------------------------------------------------------

  /**
   * The checks of `attack` and their order: each error is thrown exactly when every
   * earlier check passed and its own failed, and the call succeeds exactly when all pass.
   */
  lemma AttackChecks(e: Engine, w: World, pid: PlayerId, now: int)
    requires forall k :: k in w.state.turnOrder ==> k in w.state.players
    ensures var r := Attack(e, w, pid, now);
      var m := w.state;
      var ready := m.activePlayerId == pid && pid in m.players && OpponentId(m, pid).Some?;
      && (r.Success? <==> ready && !m.turnState.attackUsed && m.players[pid].stats.gdp > 0)
      && (r == Failure(NotYourTurn) <==> m.activePlayerId != pid)
      && (r == Failure(MissingOpponent) <==>
            m.activePlayerId == pid && (pid !in m.players || OpponentId(m, pid).None?))
      && (r == Failure(AttackAlreadyUsed) <==> ready && m.turnState.attackUsed)
      && (r == Failure(NoGdpToAttack) <==> ready && !m.turnState.attackUsed && m.players[pid].stats.gdp <= 0)
  {
  }

  /**
   * The writes of an attack: the opponent's stability drops by the attacker's GDP, to
   * no less than zero; the attacker and everything else of the opponent are untouched;
   * the attack is used up; one entry naming the attacker and the damage is logged. The
   * invariant is kept.
   */
  lemma AttackEffectsOutcome(w: World, pid: PlayerId, oid: PlayerId, now: int)
    requires Inv(w.state) && pid in w.state.players && oid in w.state.players && pid != oid
    requires w.state.players[pid].stats.gdp > 0
    ensures var m := w.state;
      var r := AttackEffects(w, pid, oid, now).state;
      var p := m.players[pid];
      var o := m.players[oid];
      && Inv(r)
      && r == m.(players := r.players, eventLog := r.eventLog, turnState := r.turnState)
      && r.turnState == m.turnState.(attackUsed := true)
      && r.players == m.players[oid := r.players[oid]]
      && r.players[oid] == o.(stats := o.stats.(stability := Max(0, o.stats.stability - p.stats.gdp)))
      && r.eventLog[0].message == Attacked(p.name, p.stats.gdp)
  {
    var m := w.state;
    var r := AttackEffects(w, pid, oid, now).state;
    assert forall k :: k in r.players ==> r.players[k].id == k && InRange(r.players[k].stats);
  }

  /** A successful attack ends with the players its writes leave; the attack keeps the invariant. */
  lemma AttackOutcome(e: Engine, w: World, pid: PlayerId, now: int)
    requires Inv(w.state)
    ensures var r := Attack(e, w, pid, now);
      r.Success? ==>
        var mid := AttackEffects(w, pid, OpponentId(w.state, pid).value, now);
        && Inv(r.value.state)
        && r.value.state.players == mid.state.players
        && r.value.state.turnState == mid.state.turnState
        && (Truthy(w.state.winnerId) ==> r.value.state.winnerId == w.state.winnerId)
        && (!Truthy(w.state.winnerId) && VerdictOf(e, mid.state).Some? ==>
              r.value.state.winnerId == Some(VerdictKey(VerdictOf(e, mid.state).value)))
  {
    var r := Attack(e, w, pid, now);
    if r.Success? {
      var oid := OpponentId(w.state, pid).value;
      assert r == Success(CheckVictory(e, AttackEffects(w, pid, oid, now), now));
      AttackEffectsOutcome(w, pid, oid, now);
      CheckVictoryOutcome(e, AttackEffects(w, pid, oid, now), now);
    }
  }

  // ---------------------------------------------------------------------------
  // Creating and joining
  // ---------------------------------------------------------------------------

  /** Under the invariant the number of seated players is the length of the turn order. */
  lemma SeatCount(m: MatchState)
    requires Inv(m)
    ensures |m.players| == |m.turnOrder|
  {
    var t := m.turnOrder;
    if |t| == 2 {
      assert m.players.Keys == {t[0], t[1]};
    } else {
      assert m.players.Keys == {t[0]};
    }
  }

  /**
   * A new id joining a match of one is seated second with a freshly dealt player and
   * nothing else changes but the log; a match of two turns it away; a seated id
   * rejoining changes nothing.
   */
  lemma AddPlayerOutcome(e: Engine, w: World, pid: PlayerId, name: string, now: int)
    requires |e.catalog| > 0 && Inv(w.state)
    ensures var r := AddPlayer(e, w, pid, name, now);
      var m := w.state;
      && (pid in m.players ==> r == Success(w))
      && (pid !in m.players && |m.turnOrder| == 2 ==> r == Failure(MatchFull))
      && (pid !in m.players && |m.turnOrder| == 1 ==>
        var d := CreatePlayer(e, pid, name, w.nextId, now, w.draws);
        && r.Success?
        && r.value.state == m.(players := m.players[pid := d.value], turnOrder := m.turnOrder + [pid],
             eventLog := r.value.state.eventLog)
        && r.value.state.eventLog[0].message == PlayerJoined(name)
        && r.value.nextId == w.nextId + StarterDeckSize + 1)
  {
    SeatCount(w.state);
  }

  /** Seating a second, in-range player under its own id keeps the invariant. */
  lemma SeatSecondKeepsInv(m: MatchState, pid: PlayerId, p: PlayerState, log: seq<GameEvent>)
    requires Inv(m) && |m.turnOrder| == 1 && pid !in m.players
    requires p.id == pid && InRange(p.stats) && |log| <= EventLogCap
    ensures Inv(m.(players := m.players[pid := p], turnOrder := m.turnOrder + [pid], eventLog := log))
  {
    var r := m.(players := m.players[pid := p], turnOrder := m.turnOrder + [pid], eventLog := log);
    assert r.turnOrder == [m.turnOrder[0], pid];
    assert forall k :: k in r.players <==> k in r.turnOrder;
  }

  /** Joining keeps the invariant. */
  lemma AddPlayerKeepsInv(e: Engine, w: World, pid: PlayerId, name: string, now: int)
    requires |e.catalog| > 0 && Inv(w.state)
    ensures var r := AddPlayer(e, w, pid, name, now);
      r.Success? ==> Inv(r.value.state)
  {
    AddPlayerOutcome(e, w, pid, name, now);
    if pid !in w.state.players && |w.state.turnOrder| == 1 {
      var d := CreatePlayer(e, pid, name, w.nextId, now, w.draws);
      var seated := Seated(e, w, pid, name, now);
      var r := LogW(seated, PlayerJoined(name), now).state;
      assert AddPlayer(e, w, pid, name, now) == Success(LogW(seated, PlayerJoined(name), now));
      assert seated.state.players == w.state.players[pid := d.value];
      StartingStatsInRange();
      SeatSecondKeepsInv(w.state, pid, d.value, r.eventLog);
      assert r == w.state.(players := w.state.players[pid := d.value], turnOrder := w.state.turnOrder + [pid], eventLog := r.eventLog);
    }
  }

  /** A newly seated player holds HandSize cards, the rest of a fresh deck, starting stats and an empty board. */
  lemma JoinedPlayerIsFresh(e: Engine, w: World, pid: PlayerId, name: string, now: int)
    requires |e.catalog| > 0 && Inv(w.state)
    requires pid !in w.state.players && |w.state.turnOrder| == 1
    ensures var r := AddPlayer(e, w, pid, name, now);
      && r.Success? && pid in r.value.state.players
      && var p := r.value.state.players[pid];
      && p.stats == StartingStats && p.board == Board([], []) && p.discard == []
      && |p.hand| == HandSize && |p.deck| == StarterDeckSize - HandSize
  {
    AddPlayerOutcome(e, w, pid, name, now);
    PlayerLemmas.CreatePlayerDeal(e, pid, name, w.nextId, now, w.draws);
  }

  /** Before the first turn the host sits alone, freshly dealt, under a one-entry log; the invariant holds. */
  lemma HostedOutcome(e: Engine, matchId: MatchId, hostId: PlayerId, hostName: string, nextId: Ident, now: int, draws: nat)
    requires |e.catalog| > 0
    ensures var w := Hosted(e, matchId, hostId, hostName, nextId, now, draws);
      var d := CreatePlayer(e, hostId, hostName, nextId, now, draws);
      && Inv(w.state)
      && w.state == MatchState(matchId, map[hostId := d.value], [hostId], hostId, None, w.state.eventLog, TurnState(0, false))
      && |w.state.eventLog| == 1 && w.state.eventLog[0].message == MatchCreated(hostName)
      && w.draws == d.draws
      && OpponentId(w.state, hostId) == None
  {
    StartingStatsInRange();
    assert [hostId][1..] == [];
  }

  /**
   * `createMatchState`: the host is seated alone and active, with fresh turn counters,
   * no winner, StartingStats plus one turn's cash, HandSize cards in hand and the rest of
   * the deck, and a log holding the creation and then the first turn. The invariant holds.
   */
  lemma CreateMatchOutcome(e: Engine, matchId: MatchId, hostId: PlayerId, hostName: string, nextId: Ident, now: int, draws: nat)
    requires |e.catalog| > 0
    ensures var m := CreateMatch(e, matchId, hostId, hostName, nextId, now, draws).state;
      && Inv(m)
      && m.id == matchId && m.turnOrder == [hostId] && m.activePlayerId == hostId
      && m.winnerId == None && m.turnState == TurnState(0, false)
      && m.players.Keys == {hostId}
      && m.players[hostId].stats == StartingStats.(cash := StartingStats.cash + CashGainPerTurn)
      && |m.players[hostId].hand| == HandSize && |m.players[hostId].deck| == StarterDeckSize - HandSize
      && |m.eventLog| == 2
      && m.eventLog[0].message == TurnStarted(hostName) && m.eventLog[1].message == MatchCreated(hostName)
  {
    var d := CreatePlayer(e, hostId, hostName, nextId, now, draws);
    PlayerLemmas.CreatePlayerDeal(e, hostId, hostName, nextId, now, draws);
    var w1 := Hosted(e, matchId, hostId, hostName, nextId, now, draws);
    HostedOutcome(e, matchId, hostId, hostName, nextId, now, draws);
    StartTurnOutcome(e, w1, hostId, now);
    StartTurnKeepsInv(e, w1, hostId, now);
    StartingStatsInRange();
    TurnPlayerDeals(e, d.value, None, now, d.draws);
    TurnPlayerPaysCash(e, d.value, None, now, d.draws);
  }

  // ---------------------------------------------------------------------------
  // The winner
  // ---------------------------------------------------------------------------

  /** Once a winner is recorded no operation changes it, whether the call succeeds or not. */
  lemma WinnerStays(e: Engine, w: World, pid: PlayerId, cardId: Ident, name: string, now: int)
    requires Inv(w.state) && Truthy(w.state.winnerId) && |e.catalog| > 0
    ensures StartTurn(e, w, pid, now).state.winnerId == w.state.winnerId
    ensures var r := EndTurn(e, w, pid, now); r.Success? ==> r.value.state.winnerId == w.state.winnerId
    ensures var r := PlayCard(e, w, pid, cardId, now); r.Success? ==> r.value.state.winnerId == w.state.winnerId
    ensures var r := Attack(e, w, pid, now); r.Success? ==> r.value.state.winnerId == w.state.winnerId
    ensures var r := AddPlayer(e, w, pid, name, now); r.Success? ==> r.value.state.winnerId == w.state.winnerId
  {
    OrderSeated(w.state);
    if pid in w.state.players {
      StartTurnOutcome(e, w, pid, now);
    }
    var n := NextInTurn(w.state.turnOrder, pid);
    if n.Some? && n.value in w.state.players {
      StartTurnOutcome(e, w, n.value, now);
    }
    PlayCardChecks(e, w, pid, cardId, now);
    if CanPlay(w, pid, cardId) {
      PlayCardOutcome(e, w, pid, cardId, now);
    }
    AttackOutcome(e, w, pid, now);
    SeatCount(w.state);
    AddPlayerOutcome(e, w, pid, name, now);
  }

  // ---------------------------------------------------------------------------
  // The engine's own test scenarios, for any position satisfying the invariant
  // ---------------------------------------------------------------------------

  /** Whose card `cardId` is in a successful play. */
  function PlayedCard(w: World, pid: PlayerId, cardId: Ident): CardInstance
    requires CanPlay(w, pid, cardId)
  {
    w.state.players[pid].hand[FindCard(w.state.players[pid].hand, cardId)]
  }

  /** Inflation Spike takes ten stability from the opponent (never below zero). */
  lemma InflationSpikeHits(e: Engine, w: World, pid: PlayerId, cardId: Ident, now: int)
    requires Inv(w.state) && CanPlay(w, pid, cardId)
    requires PlayedCard(w, pid, cardId).def.slug == InflationSpike
    ensures var oid := OpponentId(w.state, pid).value;
      var r := PlayCard(e, w, pid, cardId, now);
      && r.Success? && oid in r.value.state.players
      && r.value.state.players[oid].stats.stability == Max(0, w.state.players[oid].stats.stability - 10)
  {
    var oid := OpponentId(w.state, pid).value;
    var idx := FindCard(w.state.players[pid].hand, cardId);
    PlayCardOutcome(e, w, pid, cardId, now);
    PlayEffectsShape(w, pid, oid, idx, now);
    PlayEffectsStats(w, pid, oid, idx, now);
  }

  /**
   * Building a factory puts one industry slot worth ten GDP a turn on the caster's
   * board and costs the card's price.
   */
  lemma BuildFactoryBuilds(e: Engine, w: World, pid: PlayerId, cardId: Ident, now: int)
    requires Inv(w.state) && CanPlay(w, pid, cardId)
    requires PlayedCard(w, pid, cardId).def.slug == BuildFactory
    ensures var p := w.state.players[pid];
      var r := PlayCard(e, w, pid, cardId, now);
      && r.Success? && pid in r.value.state.players
      && var q := r.value.state.players[pid];
      && |q.board.industries| == |p.board.industries| + 1
      && q.board.policies == p.board.policies
      && q.board.industries[|p.board.industries|].effect.gdpPerTurn == Some(10)
      && q.stats.cash == p.stats.cash - PlayedCard(w, pid, cardId).def.cost
  {
    var oid := OpponentId(w.state, pid).value;
    var idx := FindCard(w.state.players[pid].hand, cardId);
    PlayCardOutcome(e, w, pid, cardId, now);
    PlayEffectsShape(w, pid, oid, idx, now);
    PlayEffectsStats(w, pid, oid, idx, now);
  }

  /** A lone factory pays out at the owner's next turn start: GDP rises by exactly ten. */
  lemma FactoryPaysNextTurn(e: Engine, p: PlayerState, slot: BoardSlot, other: Option<Stats>, now: int, draws: nat)
    requires InRange(p.stats) && p.board == Board([slot], [])
    requires slot.effect.gdpPerTurn == Some(10) && slot.effect.happinessPerTurn.None?
    requires slot.effect.stabilityPerTurn.None? && slot.effect.cashModifierUsesLeft.None?
    ensures TurnPlayer(e, p, other, now, draws).value.player.stats.gdp == p.stats.gdp + 10
  {
    var p1 := p.(stats := p.stats.(cash := p.stats.cash + CashGainPerTurn));
    assert [slot][..0] == [];
    var one := TickOne(slot, p1.stats, other);
    assert one.self == p1.stats.(gdp := p.stats.gdp + 10);
    assert MapTick([], p1.stats, other) == Ticked([], p1.stats, other);
    var t := MapTick([slot], p1.stats, other);
    assert t.self == one.self;
    var a := ApplyBoardEffects(p1, other);
    assert a.player.stats == p1.stats.(gdp := p.stats.gdp + 10);
    var d := DrawToHandCap(e, a.player, now, draws);
    assert d.value.stats == a.player.stats;
  }

  /**
   * Tourism Boost (six happiness) played by the first seat from 114 happiness or more
   * wins the match economically, on either copy, if nobody had won.
   */
  lemma TourismBoostWins(e: Engine, w: World, pid: PlayerId, cardId: Ident, now: int)
    requires Inv(w.state) && CanPlay(w, pid, cardId) && !Truthy(w.state.winnerId)
    requires PlayedCard(w, pid, cardId).def.slug == TourismBoost
    requires pid == w.state.turnOrder[0] && w.state.players[pid].stats.happiness >= VictoryHappiness - 6
    ensures var r := PlayCard(e, w, pid, cardId, now);
      r.Success? && r.value.state.winnerId == Some(pid)
  {
    var oid := OpponentId(w.state, pid).value;
    var idx := FindCard(w.state.players[pid].hand, cardId);
    PlayCardOutcome(e, w, pid, cardId, now);
    PlayEffectsShape(w, pid, oid, idx, now);
    PlayEffectsStats(w, pid, oid, idx, now);
    var mid := PlayEffects(w, pid, oid, idx, now).state;
    assert WinsEconomically(mid, mid.turnOrder[0]);
    ClientEconomicFirst(mid, 0);
  }

  /** An attack takes the attacker's GDP off the opponent's stability (never below zero). */
  lemma AttackHits(e: Engine, w: World, pid: PlayerId, now: int)
    requires Inv(w.state)
    ensures var r := Attack(e, w, pid, now);
      r.Success? ==>
        var oid := OpponentId(w.state, pid).value;
        && oid in r.value.state.players
        && r.value.state.players[oid].stats.stability ==
             Max(0, w.state.players[oid].stats.stability - w.state.players[pid].stats.gdp)
        && r.value.state.players[pid] == w.state.players[pid]
        && r.value.state.turnState.attackUsed
  {
    var r := Attack(e, w, pid, now);
    if r.Success? {
      AttackOutcome(e, w, pid, now);
      AttackEffectsOutcome(w, pid, OpponentId(w.state, pid).value, now);
    }
  }

  /**
   * An attack that wipes out the opponent's stability wins by domination, on either
   * copy, when nobody had won, nobody has VictoryHappiness, and the attacker still has
   * stability of its own.
   */
  lemma AttackDominates(e: Engine, w: World, pid: PlayerId, now: int)
    requires Inv(w.state) && !Truthy(w.state.winnerId)
    requires forall k :: k in w.state.players ==> w.state.players[k].stats.happiness < VictoryHappiness
    requires pid in w.state.players && w.state.players[pid].stats.stability > 0
    requires var o := OpponentId(w.state, pid);
      o.Some? && w.state.players[o.value].stats.stability <= w.state.players[pid].stats.gdp
    ensures var r := Attack(e, w, pid, now);
      r.Success? ==> r.value.state.winnerId == Some(pid)
  {
    var r := Attack(e, w, pid, now);
    if r.Success? {
      var oid := OpponentId(w.state, pid).value;
      var mid := AttackEffects(w, pid, oid, now);
      assert r == Success(CheckVictory(e, mid, now));
      AttackEffectsOutcome(w, pid, oid, now);
      assert OpponentId(mid.state, pid) == Some(oid);
      DominationVerdict(e, mid.state, pid, oid);
      CheckVictoryOutcome(e, mid, now);
    }
  }

  /**
   * With nobody at VictoryHappiness, exactly one of two seated players at zero
   * stability, and the other with stability left, both copies name the other player as
   * the winner by domination.
   */
  lemma DominationVerdict(e: Engine, m: MatchState, pid: PlayerId, oid: PlayerId)
    requires Inv(m) && pid in m.players && OpponentId(m, pid) == Some(oid)
    requires forall k :: k in m.players ==> m.players[k].stats.happiness < VictoryHappiness
    requires m.players[oid].stats.stability == 0 && m.players[pid].stats.stability > 0
    ensures VerdictOf(e, m) == Some(Domination(pid))
  {
    var t := m.turnOrder;
    OpponentIsOtherSeat(m, pid);
    OpponentIsOtherSeat(m, oid);
    assert |t| == 2;
    assert t[1..] == [t[1]] && t[1..][1..] == [];
    assert !WinsEconomically(m, t[0]) && !WinsEconomically(m, t[1]);
    assert WinsByDomination(m, pid);
    if pid == t[1] {
      assert !WinsByDomination(m, t[0]);
      assert FirstDomination(m, t[1..]) == Some(pid);
      assert ServerVerdict(m, t[1..]) == Some(Domination(pid));
    }
    assert FirstEconomic(m, t) == None;
    assert FirstDomination(m, t) == Some(pid);
    assert ServerVerdict(m, t) == Some(Domination(pid));
  }
}
