/**
 * The betting-round state machine: blind seats and blind deduction, the list
 * of legal actions, the call, all-in, raise, fold and check steps over a
 * player's record, one player's turn over a stream of typed moves, and one
 * pass of a betting round over the table.
 */
module Betting {
  import opened Common

  datatype Stage = PreFlop | Flop | Turn | River

  datatype Role = SmallBlind | BigBlind | Plain

  datatype Status = Active | Folded

  datatype Action = Fold | Call | Check | AllIn | Raise

  /**
   * One typed move: the action word, and for a raise the amount typed after
   * it (None when that text is not a number).
   */
  datatype Move = Move(action: Action, amount: Option<int>)

  /** The mutable part of a player's record, as a value. */
  datatype Seat = Seat(status: Status, lastAction: Option<Action>, lastBet: int, chips: int)

  /** The bet to match and the pot, which every action threads through. */
  datatype Bets = Bets(currentBet: int, pot: int)

  /**
   * What a turn reads besides the player and the bets: the street, the bet
   * the street opened with (the module-level `current_bet` the legality test
   * reads) and the two blind seats (0-based).
   */
  datatype Context = Context(stage: Stage, openingBet: int, smallBlindSeat: int, bigBlindSeat: int)

  // ---------------------------------------------------------------- blinds

  /** The blind seats after the dealer: one and two places on, around the table. */
  function BlindSeats(dealer: int): (seats: (int, int))
    ensures 0 <= seats.0 < NUM_PLAYERS && 0 <= seats.1 < NUM_PLAYERS
    ensures seats.0 == (dealer + 1) % NUM_PLAYERS && seats.1 == (seats.0 + 1) % NUM_PLAYERS
  {
    ((dealer + 1) % NUM_PLAYERS, (dealer + 2) % NUM_PLAYERS)
  }

  /** Dealer, small blind and big blind are three different seats. */
  lemma BlindSeatsDiffer(dealer: int)
    ensures var (sb, bb) := BlindSeats(dealer);
            sb != bb && sb != dealer % NUM_PLAYERS && bb != dealer % NUM_PLAYERS
  {
    var d := dealer % NUM_PLAYERS;
    assert dealer == NUM_PLAYERS * (dealer / NUM_PLAYERS) + d;
    assert (dealer + 1) % NUM_PLAYERS == (d + 1) % NUM_PLAYERS;
    assert (dealer + 2) % NUM_PLAYERS == (d + 2) % NUM_PLAYERS;
  }

  /** The role a player's prompt shows: small blind first, then big blind. */
  function RoleOf(id: int, ctx: Context): Role {
    if id == ctx.smallBlindSeat + 1 then SmallBlind
    else if id == ctx.bigBlindSeat + 1 then BigBlind
    else Plain
  }

  /**
   * With the blind seats that follow the dealer, the small blind's player is
   * shown as the small blind, the big blind's as the big blind, and the
   * dealer's as a plain player.
   */
  lemma RoleOfBlindSeats(dealer: int, ctx: Context)
    requires (ctx.smallBlindSeat, ctx.bigBlindSeat) == BlindSeats(dealer)
    ensures RoleOf(ctx.smallBlindSeat + 1, ctx) == SmallBlind
    ensures RoleOf(ctx.bigBlindSeat + 1, ctx) == BigBlind
    ensures RoleOf(dealer % NUM_PLAYERS + 1, ctx) == Plain
  {
    BlindSeatsDiffer(dealer);
  }

  // ---------------------------------------------------------------- legality

  /**
   * Whether valid_actions_helper lists `a` for a player owing `owed` with
   * `chips` chips: fold always, call when the chips cover the amount owed,
   * all-in when they do not, raise when they exceed it, and check when
   * nothing is owed, when the opening bet equals the player's last bet, or
   * for the big blind before the flop while the opening bet is the big blind.
   */
  predicate Listed(a: Action, owed: int, chips: int, lastBet: int, id: int, ctx: Context) {
    match a
    case Fold => true
    case Call => chips >= owed
    case AllIn => chips < owed
    case Raise => chips > owed
    case Check =>
      (chips >= owed && owed == 0) || ctx.openingBet == lastBet
      || (id == ctx.bigBlindSeat + 1 && ctx.stage == PreFlop && ctx.openingBet == BIG_BLIND)
  }

  /**
   * Call and all-in exclude each other and one of them is always offered;
   * raising needs more than the amount owed; with nothing owed a solvent
   * player may always check.
   */
  lemma ListedFacts(owed: int, chips: int, lastBet: int, id: int, ctx: Context)
    ensures Listed(Fold, owed, chips, lastBet, id, ctx)
    ensures Listed(Call, owed, chips, lastBet, id, ctx) != Listed(AllIn, owed, chips, lastBet, id, ctx)
    ensures Listed(Raise, owed, chips, lastBet, id, ctx) ==> Listed(Call, owed, chips, lastBet, id, ctx)
    ensures owed == 0 && chips >= 0 ==> Listed(Check, owed, chips, lastBet, id, ctx)
  {
  }

  /**
   * valid_actions_helper: appends to `validActions` the actions the player
   * may take; "check" is appended twice when both of its tests hold.
   */
  method ValidActionsHelper(callAmount: int, player: Player, validActions: seq<Action>, ctx: Context)
    returns (actions: seq<Action>)
    ensures |actions| >= |validActions| && actions[..|validActions|] == validActions
    ensures forall a :: a in actions[|validActions|..]
                        <==> a != Fold && Listed(a, callAmount, player.chips, player.lastBet, player.id, ctx)
    ensures multiset(actions[|validActions|..])[Check]
            == (if player.chips >= callAmount && callAmount == 0 then 1 else 0)
               + (if ctx.openingBet == player.lastBet
                     || (player.id == ctx.bigBlindSeat + 1 && ctx.stage == PreFlop && ctx.openingBet == BIG_BLIND)
                  then 1 else 0)
  {
    var added: seq<Action> := [];
    if player.chips >= callAmount {
      added := added + [Call];
      if callAmount == 0 {
        added := added + [Check];
      }
    } else {
      added := added + [AllIn];
    }
    if player.chips > callAmount {
      added := added + [Raise];
    }
    if ctx.openingBet == player.lastBet {
      added := added + [Check];
    } else if player.id == ctx.bigBlindSeat + 1 && ctx.stage == PreFlop && ctx.openingBet == BIG_BLIND {
      added := added + [Check];
    }
    actions := validActions + added;
    assert actions[..|validActions|] == validActions && actions[|validActions|..] == added;
  }

  /**
   * The check test a listed "check" must also pass: nothing owed, or the
   * pre-flop big blind at the big blind, or the pre-flop small blind at the
   * small blind, or the big blind after the flop with no bet.
   */
  predicate CheckAllowed(currentBet: int, lastBet: int, stage: Stage, role: Role) {
    || currentBet == lastBet
    || (stage == PreFlop && role == BigBlind && currentBet == BIG_BLIND)
    || (stage == PreFlop && role == SmallBlind && currentBet == SMALL_BLIND)
    || (stage != PreFlop && role == BigBlind && currentBet == 0)
  }

  /** The big blind's option: before the flop, at the big blind, it may check whatever its last bet. */
  lemma BigBlindOption(lastBet: int, chips: int, id: int, ctx: Context)
    requires ctx.stage == PreFlop && ctx.openingBet == BIG_BLIND
    requires id == ctx.bigBlindSeat + 1 && id != ctx.smallBlindSeat + 1
    ensures Listed(Check, BIG_BLIND - lastBet, chips, lastBet, id, ctx)
    ensures CheckAllowed(BIG_BLIND, lastBet, ctx.stage, RoleOf(id, ctx))
  {
  }

  // ---------------------------------------------------------------- steps

  /**
   * call_Helper on a seat: pay what is owed, at most the big blind less the
   * small blind for the pre-flop small blind, and at most the chips left.
   */
  function AfterCall(s: Seat, b: Bets, role: Role, stage: Stage): (r: (Seat, Bets))
    ensures var paid := s.chips - r.0.chips;
            && r.0 == s.(lastAction := Some(Call), lastBet := s.lastBet + paid, chips := s.chips - paid)
            && r.1 == Bets(b.currentBet, b.pot + paid)
            && paid <= s.chips && r.0.chips >= 0
            && paid <= b.currentBet - s.lastBet
            && (role == SmallBlind && stage == PreFlop ==> paid <= BIG_BLIND - SMALL_BLIND)
            && (|| paid == s.chips || paid == b.currentBet - s.lastBet
                || (role == SmallBlind && stage == PreFlop && paid == BIG_BLIND - SMALL_BLIND))
  {
    var owed := b.currentBet - s.lastBet;
    var capped := if role == SmallBlind && stage == PreFlop then Min(owed, BIG_BLIND - SMALL_BLIND) else owed;
    var paid := if capped > s.chips then s.chips else capped;
    (s.(lastAction := Some(Call), lastBet := s.lastBet + paid, chips := s.chips - paid), Bets(b.currentBet, b.pot + paid))
  }

  /**
   * all_in_helper on a seat: every chip goes into the pot and onto the last
   * bet, which becomes the bet to match when it is higher.
   */
  function AfterAllIn(s: Seat, b: Bets): (r: (Seat, Bets))
    ensures r.0 == s.(lastAction := Some(AllIn), lastBet := s.lastBet + s.chips, chips := 0)
    ensures r.1.pot == b.pot + s.chips
    ensures r.1.currentBet >= b.currentBet && r.1.currentBet >= r.0.lastBet
    ensures r.1.currentBet == b.currentBet || r.1.currentBet == r.0.lastBet
  {
    var lastBet := s.lastBet + s.chips;
    (s.(lastAction := Some(AllIn), lastBet := lastBet, chips := 0),
     Bets(if lastBet > b.currentBet then lastBet else b.currentBet, b.pot + s.chips))
  }

  /**
   * The raise branch: an amount below the minimum bet or above the chips is
   * refused; otherwise the bet to match rises by the amount, which alone
   * moves from the chips to the pot, and the last bet becomes the new bet.
   */
  function AfterRaise(s: Seat, b: Bets, amount: int): (r: Option<(Seat, Bets)>)
    ensures r.None? <==> amount < MINIMUM_BET || amount > s.chips
    ensures r.Some? ==>
              && r.value.1 == Bets(b.currentBet + amount, b.pot + amount)
              && r.value.0 == s.(lastAction := Some(Raise), lastBet := b.currentBet + amount, chips := s.chips - amount)
              && r.value.0.chips >= 0
  {
    if amount < MINIMUM_BET then None
    else if amount > s.chips then None
    else
      var bet := b.currentBet + amount;
      Some((s.(lastAction := Some(Raise), lastBet := bet, chips := s.chips - amount), Bets(bet, b.pot + amount)))
  }

  /** Folding marks the seat folded and changes nothing else. */
  function AfterFold(s: Seat): Seat {
    s.(status := Folded)
  }

  /** Checking records the action and moves no chips. */
  function AfterCheck(s: Seat): Seat {
    s.(lastAction := Some(Check))
  }

  /**
   * One typed move in handle_player_action: None when it is refused (not a
   * listed action, a raise amount that is not a number or out of range, a
   * check the check test refuses), otherwise the seat and bets after it.
   */
  function Respond(s: Seat, b: Bets, m: Move, id: int, ctx: Context): Option<(Seat, Bets)> {
    var role := RoleOf(id, ctx);
    if !Listed(m.action, b.currentBet - s.lastBet, s.chips, s.lastBet, id, ctx) then None
    else
      match m.action
      case Raise => if m.amount.None? then None else AfterRaise(s, b, m.amount.value)
      case Call => Some(AfterCall(s, b, role, ctx.stage))
      case Fold => Some((AfterFold(s), b))
      case AllIn => Some(AfterAllIn(s, b))
      case Check => if CheckAllowed(b.currentBet, s.lastBet, ctx.stage, role) then Some((AfterCheck(s), b)) else None
  }

  /**
   * An accepted move moves chips only between the player and the pot, keeps
   * the chips non-negative, never lowers the bet to match, and folds the
   * player exactly when the move is a fold.
   */
  lemma RespondConserves(s: Seat, b: Bets, m: Move, id: int, ctx: Context)
    requires Respond(s, b, m, id, ctx).Some?
    ensures var (s', b') := Respond(s, b, m, id, ctx).value;
            && s'.chips + b'.pot == s.chips + b.pot
            && (s.chips >= 0 ==> s'.chips >= 0)
            && b'.currentBet >= b.currentBet
            && (s'.status == Folded <==> m.action == Fold || s.status == Folded)
  {
  }

  /**
   * Because last bets are not reset between streets, a player whose last bet
   * exceeds the bet to match may call and take the difference back out of the pot.
   */
  lemma StaleLastBetRefunds(s: Seat, b: Bets, id: int, ctx: Context)
    requires s.chips >= 0 && b.currentBet < s.lastBet
    requires RoleOf(id, ctx) != SmallBlind || ctx.stage != PreFlop
    ensures Respond(s, b, Move(Call, None), id, ctx).Some?
    ensures var (s', b') := Respond(s, b, Move(Call, None), id, ctx).value;
            b'.pot == b.pot - (s.lastBet - b.currentBet) && s'.chips == s.chips + (s.lastBet - b.currentBet)
  {
    assert Listed(Call, b.currentBet - s.lastBet, s.chips, s.lastBet, id, ctx);
  }

  /**
   * While the bet is still the opening bet, a check that the list offers also
   * passes the check test, provided the two blinds sit apart.
   */
  lemma CheckListedIsAllowed(lastBet: int, chips: int, id: int, ctx: Context)
    requires ctx.smallBlindSeat != ctx.bigBlindSeat
    requires Listed(Check, ctx.openingBet - lastBet, chips, lastBet, id, ctx)
    ensures CheckAllowed(ctx.openingBet, lastBet, ctx.stage, RoleOf(id, ctx))
  {
  }

  /**
   * After a raise, a plain player whose last bet equals the opening bet is
   * still offered a check, but the check test refuses it.
   */
  lemma StaleCheckRefused(s: Seat, b: Bets, id: int, ctx: Context)
    requires ctx.openingBet == s.lastBet < b.currentBet
    requires RoleOf(id, ctx) == Plain
    ensures Listed(Check, b.currentBet - s.lastBet, s.chips, s.lastBet, id, ctx)
    ensures Respond(s, b, Move(Check, None), id, ctx).None?
  {
  }

  // ---------------------------------------------------------------- players

  /** A player's record: its number (1-based) and the fields the betting steps update. */
  class Player {
    const id: int
    var status: Status
    var lastAction: Option<Action>
    var lastBet: int
    var chips: int

    /** A player as the table starts: active, no action yet, nothing bet, the initial chips. */
    constructor (id: int)
      ensures this.id == id
      ensures State() == Seat(Active, None, 0, INITIAL_CHIP_COUNT)
    {
      this.id := id;
      status := Active;
      lastAction := None;
      lastBet := 0;
      chips := INITIAL_CHIP_COUNT;
    }

    function State(): Seat
      reads this
    {
      Seat(status, lastAction, lastBet, chips)
    }

    method FoldHand()
      modifies this
      ensures State() == AfterFold(old(State()))
    {
      status := Folded;
    }

    method CheckHand()
      modifies this
      ensures State() == AfterCheck(old(State()))
    {
      lastAction := Some(Check);
    }

    /** call_Helper: returns the new pot. */
    method CallHelper(currentBet: int, potSize: int, role: Role, stage: Stage) returns (newPot: int)
      modifies this
      ensures (State(), Bets(currentBet, newPot)) == AfterCall(old(State()), Bets(currentBet, potSize), role, stage)
    {
      var betAmount := currentBet - lastBet;
      if role == SmallBlind && stage == PreFlop {
        betAmount := Min(betAmount, BIG_BLIND - SMALL_BLIND);
      }
      if betAmount > chips {
        betAmount := chips;
      }
      chips := chips - betAmount;
      newPot := potSize + betAmount;
      lastAction := Some(Call);
      lastBet := lastBet + betAmount;
    }

    /** all_in_helper: returns the new bet to match and the new pot. */
    method AllInHelper(currentBet: int, potSize: int) returns (newBet: int, newPot: int)
      modifies this
      ensures (State(), Bets(newBet, newPot)) == AfterAllIn(old(State()), Bets(currentBet, potSize))
    {
      var allInAmount := chips;
      chips := 0;
      newPot := potSize + allInAmount;
      lastAction := Some(AllIn);
      lastBet := lastBet + allInAmount;
      newBet := currentBet;
      if lastBet > currentBet {
        newBet := lastBet;
      }
    }

    /** The raise branch of handle_player_action; a refused amount changes nothing. */
    method ApplyRaise(raiseAmount: int, currentBet: int, potSize: int) returns (accepted: bool, newBet: int, newPot: int)
      modifies this
      ensures var r := AfterRaise(old(State()), Bets(currentBet, potSize), raiseAmount);
              && accepted == r.Some?
              && (r.Some? ==> (State(), Bets(newBet, newPot)) == r.value)
              && (r.None? ==> State() == old(State()) && newBet == currentBet && newPot == potSize)
    {
      accepted, newBet, newPot := false, currentBet, potSize;
      if raiseAmount < MINIMUM_BET {
        return;
      }
      if raiseAmount > chips {
        return;
      }
      newBet := currentBet + raiseAmount;
      chips := chips - raiseAmount;
      newPot := potSize + raiseAmount;
      lastAction := Some(Raise);
      lastBet := newBet;
      accepted := true;
    }
  }

  // ---------------------------------------------------------------- one turn

  /** One player's turn: whether a move was accepted, the seat and bets after it, and the moves read. */
  datatype Handled = Handled(resolved: bool, seat: Seat, bets: Bets, used: nat)

  /**
   * handle_player_action over the typed moves: refused moves are read and
   * change nothing; the first accepted one ends the turn. When the moves run
   * out first the turn stays unresolved.
   */
  function Attempt(s: Seat, b: Bets, moves: seq<Move>, id: int, ctx: Context): (h: Handled)
    ensures h.used <= |moves|
    ensures !h.resolved ==> h.used == |moves| && h.seat == s && h.bets == b
    ensures h.resolved ==> 1 <= h.used && Respond(s, b, moves[h.used - 1], id, ctx) == Some((h.seat, h.bets))
    decreases |moves|
  {
    if moves == [] then Handled(false, s, b, 0)
    else
      match Respond(s, b, moves[0], id, ctx)
      case Some((s', b')) => Handled(true, s', b', 1)
      case None =>
        var h := Attempt(s, b, moves[1..], id, ctx);
        h.(used := h.used + 1)
  }

  /** Every move read before the accepted one (or every move, when none is accepted) was refused. */
  lemma {:induction false} AttemptSkipsRefused(s: Seat, b: Bets, moves: seq<Move>, id: int, ctx: Context, i: nat)
    requires var h := Attempt(s, b, moves, id, ctx);
             i < h.used && (h.resolved ==> i < h.used - 1)
    ensures Respond(s, b, moves[i], id, ctx).None?
    decreases |moves|
  {
    if i > 0 {
      assert moves[1..][i - 1] == moves[i];
      AttemptSkipsRefused(s, b, moves[1..], id, ctx, i - 1);
    }
  }

  /** A turn keeps chips plus pot, keeps chips non-negative, and never lowers the bet to match. */
  lemma AttemptConserves(s: Seat, b: Bets, moves: seq<Move>, id: int, ctx: Context)
    ensures var h := Attempt(s, b, moves, id, ctx);
            && h.seat.chips + h.bets.pot == s.chips + b.pot
            && (s.chips >= 0 ==> h.seat.chips >= 0)
            && h.bets.currentBet >= b.currentBet
            && (s.status == Folded ==> h.seat.status == Folded)
  {
    var h := Attempt(s, b, moves, id, ctx);
    if h.resolved {
      RespondConserves(s, b, moves[h.used - 1], id, ctx);
    }
  }

  /** The moves after the first `n`, with the count of moves read shifted back. */
  function Shifted(h: Handled, n: nat): Handled {
    h.(used := h.used + n)
  }

  /** handle_player_action: prompts until a move is accepted, reading the moves in order. */
  method HandlePlayerAction(player: Player, currentBet: int, potSize: int, ctx: Context, moves: seq<Move>)
    returns (resolved: bool, newBet: int, newPot: int, used: nat)
    modifies player
    ensures Handled(resolved, player.State(), Bets(newBet, newPot), used)
            == Attempt(old(player.State()), Bets(currentBet, potSize), moves, player.id, ctx)
  {
    ghost var start := player.State();
    ghost var b0 := Bets(currentBet, potSize);
    var role := RoleOf(player.id, ctx);
    resolved, newBet, newPot, used := false, currentBet, potSize, 0;
    while !resolved && used < |moves|
      invariant used <= |moves|
      invariant !resolved ==> player.State() == start && newBet == currentBet && newPot == potSize
      invariant !resolved ==> Attempt(start, b0, moves, player.id, ctx) == Shifted(Attempt(start, b0, moves[used..], player.id, ctx), used)
      invariant resolved ==> Attempt(start, b0, moves, player.id, ctx) == Handled(true, player.State(), Bets(newBet, newPot), used)
      decreases |moves| - used
    {
      assert moves[used..][1..] == moves[used + 1..];
      var callAmount := newBet - player.lastBet;
      var validActions := ValidActionsHelper(callAmount, player, [Fold], ctx);
      assert forall a :: a in validActions <==> a == Fold || a in validActions[1..] by {
        assert validActions == [Fold] + validActions[1..];
      }
      var move := moves[used];
      used := used + 1;
      if move.action in validActions {
        match move.action
        case Raise =>
          if move.amount.Some? {
            resolved, newBet, newPot := player.ApplyRaise(move.amount.value, newBet, newPot);
          }
        case Call =>
          newPot := player.CallHelper(newBet, newPot, role, ctx.stage);
          resolved := true;
        case Fold =>
          player.FoldHand();
          resolved := true;
        case AllIn =>
          newBet, newPot := player.AllInHelper(newBet, newPot);
          resolved := true;
        case Check =>
          if CheckAllowed(newBet, player.lastBet, ctx.stage, role) {
            player.CheckHand();
            resolved := true;
          }
      }
    }
  }

  // ---------------------------------------------------------------- the table

  /** The records of the table's players, as values. */
  function Seats(players: seq<Player>): (seats: seq<Seat>)
    reads set p | p in players
    ensures |seats| == |players|
    ensures forall i :: 0 <= i < |players| ==> seats[i] == players[i].State()
  {
    if players == [] then [] else [players[0].State()] + Seats(players[1..])
  }

  function Ids(players: seq<Player>): (ids: seq<int>)
    ensures |ids| == |players|
    ensures forall i :: 0 <= i < |players| ==> ids[i] == players[i].id
  {
    if players == [] then [] else [players[0].id] + Ids(players[1..])
  }

  predicate DistinctPlayers(players: seq<Player>) {
    forall i, j :: 0 <= i < j < |players| ==> players[i] != players[j]
  }

  function TotalChips(seats: seq<Seat>): int {
    if seats == [] then 0 else seats[0].chips + TotalChips(seats[1..])
  }

  /** Changing one seat's chips changes the total by the same amount. */
  lemma {:induction false} TotalChipsUpdate(seats: seq<Seat>, k: nat, s: Seat)
    requires k < |seats|
    ensures TotalChips(seats[k := s]) == TotalChips(seats) - seats[k].chips + s.chips
  {
    if k > 0 {
      assert seats[k := s][1..] == seats[1..][k - 1 := s];
      TotalChipsUpdate(seats[1..], k - 1, s);
    }
  }

  /** One seat pays `amount` out of its chips. */
  function Pay(seats: seq<Seat>, k: nat, amount: int): (r: seq<Seat>)
    requires k < |seats|
    ensures |r| == |seats|
  {
    seats[k := seats[k].(chips := seats[k].chips - amount)]
  }

  /**
   * assign_blinds on the records: the small blind seat pays SMALL_BLIND, then
   * the big blind seat BIG_BLIND.
   */
  function Blinds(seats: seq<Seat>, smallBlindSeat: nat, bigBlindSeat: nat): (r: seq<Seat>)
    requires smallBlindSeat < |seats| && bigBlindSeat < |seats|
    ensures |r| == |seats|
  {
    Pay(Pay(seats, smallBlindSeat, SMALL_BLIND), bigBlindSeat, BIG_BLIND)
  }

  /** Only the two blind seats lose chips, each its own blind; nothing else about any seat changes. */
  lemma BlindsPerSeat(seats: seq<Seat>, smallBlindSeat: nat, bigBlindSeat: nat, i: nat)
    requires smallBlindSeat < |seats| && bigBlindSeat < |seats| && i < |seats|
    ensures Blinds(seats, smallBlindSeat, bigBlindSeat)[i]
            == seats[i].(chips := seats[i].chips - (if i == smallBlindSeat then SMALL_BLIND else 0)
                                                 - (if i == bigBlindSeat then BIG_BLIND else 0))
  {
  }

  /** The blinds leave the players' chips exactly as much lower as the pot they return. */
  lemma BlindsConserve(seats: seq<Seat>, smallBlindSeat: nat, bigBlindSeat: nat)
    requires smallBlindSeat < |seats| && bigBlindSeat < |seats|
    ensures TotalChips(Blinds(seats, smallBlindSeat, bigBlindSeat)) + SMALL_BLIND + BIG_BLIND == TotalChips(seats)
  {
    var paid := Pay(seats, smallBlindSeat, SMALL_BLIND);
    TotalChipsUpdate(seats, smallBlindSeat, paid[smallBlindSeat]);
    TotalChipsUpdate(paid, bigBlindSeat, Pay(paid, bigBlindSeat, BIG_BLIND)[bigBlindSeat]);
  }

  /** assign_blinds: deducts the blinds and returns them as the starting pot. */
  method AssignBlinds(players: seq<Player>, smallBlindSeat: nat, bigBlindSeat: nat) returns (pot: int)
    requires smallBlindSeat < |players| && bigBlindSeat < |players|
    requires DistinctPlayers(players)
    modifies players[smallBlindSeat], players[bigBlindSeat]
    ensures Seats(players) == Blinds(old(Seats(players)), smallBlindSeat, bigBlindSeat)
    ensures pot == SMALL_BLIND + BIG_BLIND
  {
    PayBlind(players, smallBlindSeat, SMALL_BLIND);
    PayBlind(players, bigBlindSeat, BIG_BLIND);
    pot := SMALL_BLIND + BIG_BLIND;
  }

  /** One blind deduction; no other player's record changes. */
  method PayBlind(players: seq<Player>, k: nat, blind: int)
    requires k < |players| && DistinctPlayers(players)
    modifies players[k]
    ensures Seats(players) == Pay(old(Seats(players)), k, blind)
  {
    players[k].chips := players[k].chips - blind;
  }

  // ---------------------------------------------------------------- one round

  /** A betting round's progress: the seats, the bets, the moves read, and whether every turn was resolved. */
  datatype RoundResult = RoundResult(seats: seq<Seat>, bets: Bets, used: nat, complete: bool)

  /**
   * The table after the first k seats of one pass of betting_round: a seat
   * that has folded is passed over; any other takes its turn, reading the
   * moves where the previous turn stopped.
   */
  function RoundUpTo(seats: seq<Seat>, ids: seq<int>, b: Bets, input: seq<Move>, ctx: Context, k: nat): (r: RoundResult)
    requires |ids| == |seats| && k <= |seats|
    ensures |r.seats| == |seats| && r.used <= |input|
    decreases k
  {
    if k == 0 then RoundResult(seats, b, 0, true)
    else
      var r := RoundUpTo(seats, ids, b, input, ctx, k - 1);
      if r.seats[k - 1].status == Folded then r
      else
        var h := Attempt(r.seats[k - 1], r.bets, input[r.used..], ids[k - 1], ctx);
        RoundResult(r.seats[k - 1 := h.seat], h.bets, r.used + h.used, r.complete && h.resolved)
  }

  /** Seat k takes its turn. */
  lemma RoundUpToTurn(seats: seq<Seat>, ids: seq<int>, b: Bets, input: seq<Move>, ctx: Context, k: nat, h: Handled)
    requires |ids| == |seats| && k < |seats|
    requires var r := RoundUpTo(seats, ids, b, input, ctx, k);
             r.seats[k].status != Folded && h == Attempt(r.seats[k], r.bets, input[r.used..], ids[k], ctx)
    ensures var r := RoundUpTo(seats, ids, b, input, ctx, k);
            RoundUpTo(seats, ids, b, input, ctx, k + 1)
            == RoundResult(r.seats[k := h.seat], h.bets, r.used + h.used, r.complete && h.resolved)
  {
  }

  /** Seat k has folded and is passed over. */
  lemma RoundUpToFolded(seats: seq<Seat>, ids: seq<int>, b: Bets, input: seq<Move>, ctx: Context, k: nat)
    requires |ids| == |seats| && k < |seats|
    requires RoundUpTo(seats, ids, b, input, ctx, k).seats[k].status == Folded
    ensures RoundUpTo(seats, ids, b, input, ctx, k + 1) == RoundUpTo(seats, ids, b, input, ctx, k)
  {
  }

  /** One pass of betting_round over the whole table. */
  function Round(seats: seq<Seat>, ids: seq<int>, b: Bets, input: seq<Move>, ctx: Context): RoundResult
    requires |ids| == |seats|
  {
    RoundUpTo(seats, ids, b, input, ctx, |seats|)
  }

  predicate ChipsNonNegative(seats: seq<Seat>) {
    forall i :: 0 <= i < |seats| ==> seats[i].chips >= 0
  }

  /**
   * Part of a round keeps the players' chips plus the pot, keeps chips
   * non-negative, never lowers the bet to match, leaves folded players and
   * players yet to act untouched, and only ever folds more players.
   */
  lemma {:induction false} RoundUpToConserves(seats: seq<Seat>, ids: seq<int>, b: Bets, input: seq<Move>, ctx: Context, k: nat)
    requires |ids| == |seats| && k <= |seats|
    ensures var r := RoundUpTo(seats, ids, b, input, ctx, k);
            && TotalChips(r.seats) + r.bets.pot == TotalChips(seats) + b.pot
            && r.bets.currentBet >= b.currentBet
            && (ChipsNonNegative(seats) ==> ChipsNonNegative(r.seats))
            && (forall i :: 0 <= i < |seats| && (k <= i || seats[i].status == Folded) ==> r.seats[i] == seats[i])
            && (forall i :: 0 <= i < |seats| && seats[i].status == Folded ==> r.seats[i].status == Folded)
    decreases k
  {
    if k > 0 {
      RoundUpToConserves(seats, ids, b, input, ctx, k - 1);
      var r := RoundUpTo(seats, ids, b, input, ctx, k - 1);
      if r.seats[k - 1].status != Folded {
        var h := Attempt(r.seats[k - 1], r.bets, input[r.used..], ids[k - 1], ctx);
        AttemptConserves(r.seats[k - 1], r.bets, input[r.used..], ids[k - 1], ctx);
        TotalChipsUpdate(r.seats, k - 1, h.seat);
      }
    }
  }

  /** The whole pass: chips plus pot are kept, and so is every folded player's record. */
  lemma RoundConserves(seats: seq<Seat>, ids: seq<int>, b: Bets, input: seq<Move>, ctx: Context)
    requires |ids| == |seats|
    ensures var r := Round(seats, ids, b, input, ctx);
            && TotalChips(r.seats) + r.bets.pot == TotalChips(seats) + b.pot
            && r.bets.currentBet >= b.currentBet
            && (ChipsNonNegative(seats) ==> ChipsNonNegative(r.seats))
            && (forall i :: 0 <= i < |seats| && seats[i].status == Folded ==> r.seats[i] == seats[i])
  {
    RoundUpToConserves(seats, ids, b, input, ctx, |seats|);
  }

  /**
   * betting_round: one pass over the players (handle_player_action always
   * reports its turn resolved, so the enclosing `while` never repeats);
   * returns the pot.
   */
  method BettingRound(stage: Stage, players: seq<Player>, currentBet: int, potSize: int,
                      smallBlindSeat: int, bigBlindSeat: int, input: seq<Move>)
    returns (pot: int, complete: bool)
    requires DistinctPlayers(players)
    modifies set p | p in players
    ensures var r := Round(old(Seats(players)), Ids(players), Bets(currentBet, potSize), input,
                           Context(stage, currentBet, smallBlindSeat, bigBlindSeat));
            Seats(players) == r.seats && pot == r.bets.pot && complete == r.complete
  {
    ghost var start := Seats(players);
    ghost var ids := Ids(players);
    var ctx := Context(stage, currentBet, smallBlindSeat, bigBlindSeat);
    ghost var b0 := Bets(currentBet, potSize);
    var bet, pos := currentBet, 0;
    pot, complete := potSize, true;
    for k := 0 to |players|
      invariant var r := RoundUpTo(start, ids, b0, input, ctx, k);
                Seats(players) == r.seats && Bets(bet, pot) == r.bets && pos == r.used && complete == r.complete
    {
      ghost var r := RoundUpTo(start, ids, b0, input, ctx, k);
      assert r.seats[k] == players[k].State() && ids[k] == players[k].id;
      if players[k].status != Folded {
        ghost var h := Attempt(r.seats[k], r.bets, input[r.used..], ids[k], ctx);
        RoundUpToTurn(start, ids, b0, input, ctx, k, h);
        var resolved, used;
        resolved, bet, pot, used := TurnAt(players, k, bet, pot, ctx, input[pos..]);
        assert Handled(resolved, players[k].State(), Bets(bet, pot), used) == h;
        pos := pos + used;
        complete := complete && resolved;
      } else {
        RoundUpToFolded(start, ids, b0, input, ctx, k);
      }
    }
  }

  /** The turn of the player in seat k; no other player's record changes. */
  method TurnAt(players: seq<Player>, k: nat, currentBet: int, potSize: int, ctx: Context, moves: seq<Move>)
    returns (resolved: bool, newBet: int, newPot: int, used: nat)
    requires k < |players| && DistinctPlayers(players)
    modifies players[k]
    ensures Seats(players) == old(Seats(players))[k := players[k].State()]
    ensures Handled(resolved, players[k].State(), Bets(newBet, newPot), used)
            == Attempt(old(players[k].State()), Bets(currentBet, potSize), moves, players[k].id, ctx)
  {
    resolved, newBet, newPot, used := HandlePlayerAction(players[k], currentBet, potSize, ctx, moves);
  }

  // ---------------------------------------------------------------- as the module runs

  /**
   * valid_actions_helper as the module runs it: the big-blind test reads the
   * module-level `stage`, which only the post-flop loop binds. Before that
   * (`globalStage` None) reaching that test fails, which is the None result.
   */
  function ValidActionsAsWritten(callAmount: int, chips: int, lastBet: int, id: int,
                                 globalBet: int, globalStage: Option<Stage>, bigBlindSeat: int): (r: Option<seq<Action>>)
    ensures r.None? <==> globalBet != lastBet && id == bigBlindSeat + 1 && globalStage.None?
  {
    var offered := [Fold] + (if chips >= callAmount then [Call] + (if callAmount == 0 then [Check] else []) else [AllIn])
                   + (if chips > callAmount then [Raise] else []);
    if globalBet == lastBet then Some(offered + [Check])
    else if id != bigBlindSeat + 1 then Some(offered)
    else if globalStage.None? then None
    else if globalStage.value == PreFlop && globalBet == BIG_BLIND then Some(offered + [Check])
    else Some(offered)
  }

  /**
   * The first pre-flop turn of the big blind always fails as written: the
   * opening bet is the big blind, while assign_blinds leaves the big blind's
   * last bet at 0.
   */
  lemma BigBlindFirstTurnFails(chips: int, bigBlindSeat: int)
    ensures ValidActionsAsWritten(BIG_BLIND, chips, 0, bigBlindSeat + 1, BIG_BLIND, None, bigBlindSeat).None?
  {
  }

  /** Once the module-level stage is bound, the as-written list offers exactly the listed actions. */
  lemma AsWrittenOnceStageBound(callAmount: int, chips: int, lastBet: int, id: int, ctx: Context)
    ensures var r := ValidActionsAsWritten(callAmount, chips, lastBet, id, ctx.openingBet, Some(ctx.stage), ctx.bigBlindSeat);
            r.Some? && forall a :: a in r.value <==> Listed(a, callAmount, chips, lastBet, id, ctx)
  {
    var r := ValidActionsAsWritten(callAmount, chips, lastBet, id, ctx.openingBet, Some(ctx.stage), ctx.bigBlindSeat);
    forall a ensures a in r.value <==> Listed(a, callAmount, chips, lastBet, id, ctx) {
      assert Fold in r.value;
    }
  }

  /**
   * The main script's post-flop update `pot_size += betting_round(...)`:
   * the round already returns the whole pot, which is then added to the old one.
   */
  function StreetPotAsWritten(potBefore: int, roundPot: int): int {
    potBefore + roundPot
  }

  /** As written, a post-flop round counts the pot it started with twice. */
  lemma StreetPotCountsTwice(seats: seq<Seat>, ids: seq<int>, b: Bets, input: seq<Move>, ctx: Context)
    requires |ids| == |seats|
    ensures var r := Round(seats, ids, b, input, ctx);
            TotalChips(r.seats) + StreetPotAsWritten(b.pot, r.bets.pot) == TotalChips(seats) + 2 * b.pot
  {
    RoundConserves(seats, ids, b, input, ctx);
  }

  /** The pot after a street: the pot the round returns. */
  function StreetPot(potBefore: int, roundPot: int): int {
    roundPot
  }

  /** With the round's pot taken as the new pot, the chips on the table plus the pot stay the same. */
  lemma StreetPotConserves(seats: seq<Seat>, ids: seq<int>, b: Bets, input: seq<Move>, ctx: Context)
    requires |ids| == |seats|
    ensures var r := Round(seats, ids, b, input, ctx);
            TotalChips(r.seats) + StreetPot(b.pot, r.bets.pot) == TotalChips(seats) + b.pot
  {
    RoundConserves(seats, ids, b, input, ctx);
  }
}
