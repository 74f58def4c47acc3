/**
 * Whole games: what every reachable state satisfies, how the turn count moves, how long a
 * game can last, and what an honest player can count on.
 */
module BoardRuns {
  import opened Wrappers
  import opened Bits
  import opened Coords
  import opened Counting
  import opened Fleets
  import opened Grids
  import opened Placement
  import opened Board

  /** The player whose answer to the current shot is outstanding. */
  function PendingAgainst(s: BoardState): Option<Player>
    requires CanMove(s)
  {
    if s.currentShot.None? then None
    else if GetPhase(s) == Answering then Some(s.turn.value)
    else if GetPhase(s) == SecondRevealPosition then Some(Opponent(s.turn.value))
    else None
  }

  /** The shot is on the board, guessed, and not (yet) a hit. */
  predicate Unanswered(shot: Uint32, known: Known) {
    && shot < CELLS
    && Target(shot) in Occupied(known.guessed)
    && Target(shot) !in Occupied(known.hits)
  }

  predicate KnownConsistent(s: BoardState) {
    && |s.knownShips| == 2
    && forall i :: 0 <= i < 2 ==> Occupied(s.knownShips[i].hits) <= Occupied(s.knownShips[i].guessed)
  }

  /** The first of the two reveals passed all checks but did not win the game at once. */
  ghost predicate FirstRevealPassed(s: BoardState)
    requires CanMove(s) && GetPhase(s) == SecondRevealPosition && |s.knownShips| == 2
  {
    var first := Opponent(s.turn.value);
    && LegalPlacement(Occupied(s.positions[first]))
    && AnswersMatch(s.positions[first], s.knownShips[first])
    && |Occupied(s.knownShips[s.turn.value].hits)| < TOTAL_SHIP_CELLS
  }

  ghost predicate Inv(s: BoardState) {
    && IsValidForTwo(s)
    && match GetPhase(s) {
         case FirstCommitment => Fresh(s)
         case SecondCommitment => Fresh(s)
         case FirstRevealSeed => Fresh(s)
         case Shoot => KnownConsistent(s)
         case Answering =>
           KnownConsistent(s) && Unanswered(s.currentShot.value, s.knownShips[s.turn.value])
         case SecondRevealPosition =>
           && KnownConsistent(s)
           && FirstRevealPassed(s)
           && (s.currentShot.Some? ==>
                 Unanswered(s.currentShot.value, s.knownShips[Opponent(s.turn.value)]))
         case Finished =>
           && KnownConsistent(s) && |s.positions| == 2 && s.winner.value < 2
           && (s.currentShot.Some? ==> exists i :: 0 <= i < 2 && Unanswered(s.currentShot.value, s.knownShips[i]))
         case InvalidPhase => false
       }
  }

  /** Nothing has been shot or revealed yet. */
  predicate Fresh(s: BoardState) {
    s.knownShips == [] && s.positions == [] && s.currentShot.None?
  }

  lemma InitialInv()
    ensures Inv(InitialBoardState()) && CanMove(InitialBoardState())
  {
  }

  /** Every accepted move leads from a state of a game to a valid state that keeps the invariant. */
  lemma StepInv(env: Crypto, s: BoardState, mv: Move)
    requires Inv(s) && CanMove(s) && ApplyMove(env, s, mv).Some?
    ensures Inv(ApplyMove(env, s, mv).value)
  {
    var t := ApplyMove(env, s, mv).value;
    match mv
    case PositionCommitment(_, _, _) =>
    case SeedReveal(_) => OccupiedOfZero();
    case Shot(_) =>
      var other := Opponent(s.turn.value);
      TargetOnBoard(mv.location.value);
      assert Target(t.currentShot.value) == Target(mv.location.value);
      assert Target(t.currentShot.value) !in Occupied(s.knownShips[other].hits);
      assert t.knownShips[other].hits == s.knownShips[other].hits;
    case Answer(_) => AnswerInv(s, mv);
    case PositionReveal(_, _) => RevealInv(env, s, mv);
  }

  lemma AnswerInv(s: BoardState, mv: Move)
    requires Inv(s) && CanMove(s) && mv.Answer? && ApplyReply(mv, s).Some?
    ensures Inv(ApplyReply(mv, s).value)
  {
    TargetOnBoard(s.currentShot.value);
  }

  lemma RevealInv(env: Crypto, s: BoardState, mv: Move)
    requires Inv(s) && CanMove(s) && mv.PositionReveal? && ApplyPositionReveal(env, mv, s).Some?
    ensures Inv(ApplyPositionReveal(env, mv, s).value)
  {
    hide LegalPlacement, Occupied;
    var t := ApplyPositionReveal(env, mv, s).value;
    if t.winner.None? {
      LegalPositionHasLowHalf(mv.position.value);
      assert mv.position.value != 0;
    } else if s.currentShot.Some? {
      assert Unanswered(s.currentShot.value, s.knownShips[PendingAgainst(s).value]);
    }
  }

  // ---- States outside of games ----

  /** The reveal fields do not contradict that the given player is to shoot or to reveal. */
  predicate RevealsFit(s: BoardState, turn: Player) {
    |s.positions| == 0 || (|s.positions| == 2 && s.positions[turn] == 0 && s.positions[Opponent(turn)] != 0)
  }

  /** No phase that the move enters finds its fields filled wrongly already. */
  predicate FieldsFit(env: Crypto, s: BoardState, mv: Move) {
    match GetPhase(s)
    case SecondCommitment => |s.knownShips| == 0 || (|s.knownShips| == 2 && RevealsFit(s, 0))
    case FirstRevealSeed =>
      mv.SeedReveal? ==>
        RevealsFit(s, if env.coin(env.sha(mv.revealedSeed.GetOr("") + s.seed1.GetOr(""))) then 1 else 0)
    case _ => true
  }

  /**
   * From an arbitrary valid state (anyone can encode one that no game reaches), an accepted
   * move gives a valid state unless it enters a phase whose fields were already filled wrongly.
   */
  lemma ResultValidity(env: Crypto, s: BoardState, mv: Move)
    requires CanMove(s) && ApplyMove(env, s, mv).Some?
    ensures IsValidForTwo(ApplyMove(env, s, mv).value) <==> FieldsFit(env, s, mv)
  {
    hide Occupied;
    if mv.PositionReveal? && ApplyMove(env, s, mv).value.winner.None? {
      LegalPositionHasLowHalf(mv.position.value);
    }
  }

  /** A valid state whose legal next move leads to a state that does not parse. */
  lemma ValidStateWithInvalidSuccessor(env: Crypto, seed: string)
    requires |seed| <= NUM_BYTES && |env.sha(seed)| == NUM_BYTES
    ensures var s := BoardState(Some(0), ["", ""], Some(env.sha(seed)), None, [], None, [0], None);
      && CanMove(s) && ApplyMove(env, s, SeedReveal(Some(seed))).Some?
      && !IsValidForTwo(ApplyMove(env, s, SeedReveal(Some(seed))).value)
  {
  }

  // ---- Turn counts ----

  function One(p: Word): nat {
    if CountsAsRevealed(p) then 1 else 0
  }

  lemma RevealedPair(positions: seq<Word>)
    requires |positions| == 2
    ensures Revealed(positions) == One(positions[0]) + One(positions[1])
  {
    hide CountsAsRevealed;
    assert positions[..1][..0] == [];
    assert positions[..1][0] == positions[0];
    assert Revealed(positions[..1]) == One(positions[0]);
  }

  lemma ShotsPair(known: seq<Known>)
    requires |known| == 2
    ensures Shots(known) == |Occupied(known[0].guessed)| + |Occupied(known[1].guessed)|
  {
    hide Occupied;
    assert known[..1][..0] == [];
    assert known[..1][0] == known[0];
    assert Shots(known[..1]) == |Occupied(known[0].guessed)|;
  }

  /** A reveal that the 32-bit turn count does not notice. */
  predicate GoesUncounted(mv: Move) {
    mv.PositionReveal? && mv.position.Some? && !CountsAsRevealed(mv.position.value)
  }

  lemma ShotTurnCount(s: BoardState, mv: Move)
    requires CanMove(s) && mv.Shot? && ApplyShot(mv, s).Some?
    ensures GetPhase(ApplyShot(mv, s).value) == Answering
    ensures TurnCount(ApplyShot(mv, s).value) == TurnCount(s) + 1
  {
    hide Occupied;
    var t := ApplyShot(mv, s).value;
    var other := Opponent(s.turn.value);
    ShotsPair(s.knownShips);
    ShotsPair(t.knownShips);
    assert |Occupied(t.knownShips[other].guessed)| == |Occupied(s.knownShips[other].guessed)| + 1;
  }

  lemma AnswerTurnCount(s: BoardState, mv: Move)
    requires CanMove(s) && mv.Answer? && ApplyReply(mv, s).Some?
    ensures GetPhase(ApplyReply(mv, s).value) == Shoot
    ensures TurnCount(ApplyReply(mv, s).value) == TurnCount(s) + 1
  {
    ShotsPair(s.knownShips);
    ShotsPair(ApplyReply(mv, s).value.knownShips);
  }

  lemma RevealTurnCount(env: Crypto, s: BoardState, mv: Move)
    requires CanMove(s) && mv.PositionReveal? && ApplyPositionReveal(env, mv, s).Some?
    ensures GetPhase(ApplyPositionReveal(env, mv, s).value) in {SecondRevealPosition, Finished}
    ensures TurnCount(ApplyPositionReveal(env, mv, s).value) == TurnCount(s) + One(mv.position.value)
  {
    var t := ApplyPositionReveal(env, mv, s).value;
    assert |s.positions| == 0 || s.positions[s.turn.value] == 0 by {
      assert GetPhase(s) in {Shoot, Answering, SecondRevealPosition};
    }
    RecordCounts(s, mv.position.value);
    assert t.positions == Record(s, mv.position.value).positions && t.knownShips == s.knownShips;
    assert t.currentShot == s.currentShot;
  }

  lemma NothingRevealed()
    ensures !CountsAsRevealed(0)
  {
  }

  lemma RecordCounts(s: BoardState, p: Word)
    requires CanMove(s) && GetPhase(s) in {Shoot, Answering, SecondRevealPosition}
    requires |s.positions| == 0 || s.positions[s.turn.value] == 0
    ensures Revealed(Record(s, p).positions) == Revealed(s.positions) + One(p)
  {
    hide CountsAsRevealed;
    assert !CountsAsRevealed(0) by { NothingRevealed(); }
    RevealedPair(Record(s, p).positions);
    if |s.positions| == 2 {
      RevealedPair(s.positions);
    } else {
      assert s.positions == [];
    }
  }

  /** Each move raises the turn count by one, except an uncounted reveal, which leaves it alone. */
  lemma StepTurnCount(env: Crypto, s: BoardState, mv: Move)
    requires Inv(s) && CanMove(s) && ApplyMove(env, s, mv).Some?
    ensures GetPhase(ApplyMove(env, s, mv).value) != InvalidPhase
    ensures TurnCount(ApplyMove(env, s, mv).value) == TurnCount(s) + (if GoesUncounted(mv) then 0 else 1)
  {
    match mv
    case PositionCommitment(_, _, _) =>
    case SeedReveal(_) =>
      OccupiedOfZero();
      ShotsPair(ApplyMove(env, s, mv).value.knownShips);
    case Shot(_) => ShotTurnCount(s, mv);
    case Answer(_) => AnswerTurnCount(s, mv);
    case PositionReveal(_, _) => RevealTurnCount(env, s, mv);
  }

  /** A reveal that goes uncounted is an illegal placement, so it ends the game. */
  lemma UncountedEndsGame(env: Crypto, s: BoardState, mv: Move)
    requires CanMove(s) && ApplyMove(env, s, mv).Some? && GoesUncounted(mv)
    ensures ApplyMove(env, s, mv).value.winner == Some(Opponent(s.turn.value))
  {
    if LegalPlacement(Occupied(mv.position.value)) {
      LegalPositionHasLowHalf(mv.position.value);
    }
  }

  /** The move gives the next state of a valid state a higher turn count. */
  predicate RaisesCount(s: BoardState, mv: Move) {
    match GetPhase(s)
    case FirstRevealSeed => s.currentShot.None? || Revealed(s.positions) > 0
    case _ => !GoesUncounted(mv)
  }

  /** Also outside of games, exactly when a move from one valid state to another raises the turn count. */
  lemma ValidMoveRises(env: Crypto, s: BoardState, mv: Move)
    requires CanMove(s) && ApplyMove(env, s, mv).Some? && IsValidForTwo(ApplyMove(env, s, mv).value)
    ensures TurnCount(ApplyMove(env, s, mv).value) > TurnCount(s) <==> RaisesCount(s, mv)
  {
    hide Occupied, LegalPlacement;
    match mv
    case PositionCommitment(_, _, _) =>
    case SeedReveal(_) =>
      OccupiedOfZero();
      ShotsPair(ApplyMove(env, s, mv).value.knownShips);
    case Shot(_) => ShotTurnCount(s, mv);
    case Answer(_) => AnswerTurnCount(s, mv);
    case PositionReveal(_, _) => RevealTurnCount(env, s, mv);
  }

  /** The turn count of a valid state before and after a move fits any integer type. */
  lemma ValidTurnCount(s: BoardState)
    requires IsValidForTwo(s) && (GetPhase(s) == Finished ==> |s.knownShips| == 2 && |s.positions| == 2)
    ensures 1 <= TurnCount(s) <= MAX_TURN_COUNT
  {
    hide Occupied;
    if |s.positions| == 2 {
      RevealedPair(s.positions);
    }
    if |s.knownShips| == 2 {
      ShotsPair(s.knownShips);
      AtMost64(s.knownShips[0].guessed);
      AtMost64(s.knownShips[1].guessed);
    }
  }

  lemma MoveEndsInPair(env: Crypto, s: BoardState, mv: Move)
    requires CanMove(s) && ApplyMove(env, s, mv).Some?
    ensures var t := ApplyMove(env, s, mv).value;
      GetPhase(t) == Finished ==> |t.knownShips| == 2 && |t.positions| == 2
  {
    hide Occupied, LegalPlacement;
  }

  /** Revealing an empty position, to which one can commit, is a move that the turn count misses. */
  lemma EmptyRevealGoesUncounted(env: Crypto)
    requires |env.sha(BlobOf(0, 8) + "")| == NUM_BYTES
    ensures var s := BoardState(Some(0), [env.sha(BlobOf(0, 8) + ""), ""], None, None,
                                [Known(0, 0), Known(0, 0)], None, [], None);
      var mv := PositionReveal(Some(0), None);
      && Inv(s) && CanMove(s) && ApplyMove(env, s, mv).Some?
      && TurnCount(ApplyMove(env, s, mv).value) == TurnCount(s)
  {
    hide LegalPlacement;
    OccupiedOfZero();
    var s := BoardState(Some(0), [env.sha(BlobOf(0, 8) + ""), ""], None, None,
                        [Known(0, 0), Known(0, 0)], None, [], None);
    StepTurnCount(env, s, PositionReveal(Some(0), None));
  }

  const MAX_TURN_COUNT := 262

  lemma AtMost64(b: Word)
    ensures |Occupied(b)| <= CELLS
  {
    RectCount(0, 0, SIDE, SIDE);
    SubsetCount(Occupied(b), Rect(0, 0, SIDE, SIDE));
  }

  lemma TurnCountBound(s: BoardState)
    requires Inv(s)
    ensures 1 <= TurnCount(s) <= MAX_TURN_COUNT
  {
    if |s.positions| == 2 {
      RevealedPair(s.positions);
    }
    if |s.knownShips| == 2 {
      ShotsPair(s.knownShips);
      AtMost64(s.knownShips[0].guessed);
      AtMost64(s.knownShips[1].guessed);
      if s.currentShot.Some? && GetPhase(s) != FirstCommitment {
        assert exists i :: 0 <= i < 2 && |Occupied(s.knownShips[i].guessed)| > 0;
      }
    }
  }

  // ---- Runs ----

  /** A game: states linked by accepted moves, from the initial state on. */
  ghost predicate IsRun(env: Crypto, states: seq<BoardState>, moves: seq<Move>) {
    && |states| == |moves| + 1
    && states[0] == InitialBoardState()
    && forall k :: 0 <= k < |moves| ==> Accepts(env, states[k], moves[k], states[k + 1])
  }

  ghost predicate Accepts(env: Crypto, s: BoardState, mv: Move, t: BoardState) {
    CanMove(s) && ApplyMove(env, s, mv) == Some(t)
  }

  lemma {:induction false} RunInv(env: Crypto, states: seq<BoardState>, moves: seq<Move>, k: nat)
    requires IsRun(env, states, moves) && k <= |moves|
    ensures Inv(states[k])
  {
    if k == 0 {
      InitialInv();
    } else {
      RunInv(env, states, moves, k - 1);
      assert Accepts(env, states[k - 1], moves[k - 1], states[k - 1 + 1]);
      StepInv(env, states[k - 1], moves[k - 1]);
    }
  }

  /** The turn count numbers the states of a game; only the final move can go uncounted. */
  lemma {:induction false} RunTurnCount(env: Crypto, states: seq<BoardState>, moves: seq<Move>, k: nat)
    requires IsRun(env, states, moves) && k <= |moves|
    ensures GetPhase(states[k]) != InvalidPhase
    ensures k < |moves| ==> TurnCount(states[k]) == k + 1
    ensures k <= TurnCount(states[k]) <= k + 1
    ensures TurnCount(states[k]) == k <==> k > 0 && GoesUncounted(moves[k - 1])
  {
    hide Inv, ApplyMove, Shots, Revealed;
    assert TurnCount(InitialBoardState()) == 1;
    RunInv(env, states, moves, k);
    assert k < |moves| ==> Accepts(env, states[k], moves[k], states[k + 1]);
    if k > 0 {
      RunTurnCount(env, states, moves, k - 1);
      RunInv(env, states, moves, k - 1);
      assert Accepts(env, states[k - 1], moves[k - 1], states[k - 1 + 1]);
      StepTurnCount(env, states[k - 1], moves[k - 1]);
      if GoesUncounted(moves[k - 1]) {
        UncountedEndsGame(env, states[k - 1], moves[k - 1]);
        NoTurnIffWinner(states[k]);
      }
    }
  }

  /** No game has more than 262 moves. */
  lemma RunLengthBound(env: Crypto, states: seq<BoardState>, moves: seq<Move>)
    requires IsRun(env, states, moves)
    ensures |moves| <= MAX_TURN_COUNT
  {
    RunTurnCount(env, states, moves, |moves|);
    RunInv(env, states, moves, |moves|);
    TurnCountBound(states[|moves|]);
  }

  // ---- Honest players ----

  /** Player i answers by the position p, and reveals p, but not instead of answering. */
  predicate HonestMove(i: Player, p: Word, s: BoardState, mv: Move) {
    CanMove(s) && s.turn.value == i ==>
      && (mv.Answer? && mv.reply.Some? && GetPhase(s) == Answering ==>
            mv.reply.value == if Target(s.currentShot.value) in Occupied(p) then Hit else Miss)
      && (mv.PositionReveal? ==> mv.position == Some(p) && GetPhase(s) != Answering)
  }

  function PendingCells(i: Player, s: BoardState): set<Coord>
    requires CanMove(s)
  {
    if PendingAgainst(s) == Some(i) then {Target(s.currentShot.value)} else {}
  }

  /** The hits recorded for an honest player are exactly the ship cells among the answered shots. */
  predicate HonestSoFar(i: Player, p: Word, s: BoardState)
    requires CanMove(s)
  {
    && (|s.knownShips| == 2 ==>
          Occupied(s.knownShips[i].hits)
            == Occupied(p) * (Occupied(s.knownShips[i].guessed) - PendingCells(i, s)))
    && (GetPhase(s) == SecondRevealPosition && s.turn.value != i ==> s.positions[i] == p)
    && (GetPhase(s) == SecondRevealPosition && s.turn.value == i ==> PendingCells(i, s) == {})
  }

  /** The opponent reveals a legal position that matches their answers, and that decides the game. */
  ghost predicate FairLoss(i: Player, p: Word, s: BoardState, mv: Move)
    requires CanMove(s) && |s.knownShips| == 2
  {
    && s.turn.value == Opponent(i) && mv.PositionReveal? && mv.position.Some?
    && LegalPlacement(Occupied(mv.position.value))
    && AnswersMatch(mv.position.value, s.knownShips[Opponent(i)])
    && (|| (GetPhase(s) in {Shoot, Answering} && Occupied(s.knownShips[i].hits) == Occupied(p))
        || (GetPhase(s) == SecondRevealPosition && s.positions[i] == p
            && |Occupied(s.knownShips[Opponent(i)].hits)| < TOTAL_SHIP_CELLS))
  }

  /** The honest player's own reveal passes both checks. */
  lemma HonestRevealPasses(s: BoardState, i: Player, p: Word)
    requires CanMove(s) && GetPhase(s) in {Shoot, SecondRevealPosition} && s.turn.value == i
    requires |s.knownShips| == 2 && HonestSoFar(i, p, s) && LegalPlacement(Occupied(p))
    ensures Judge(s, p) != Some(Opponent(i))
  {
    assert PendingCells(i, s) == {};
    assert Occupied(s.knownShips[i].guessed) - {} == Occupied(s.knownShips[i].guessed);
    assert AnswersMatch(p, s.knownShips[i]);
  }

  /** Having as many hits as ship cells means that all the honest player's cells are hit. */
  lemma AllHit(s: BoardState, i: Player, p: Word)
    requires CanMove(s) && |s.knownShips| == 2 && HonestSoFar(i, p, s) && LegalPlacement(Occupied(p))
    requires |Occupied(s.knownShips[i].hits)| >= TOTAL_SHIP_CELLS
    ensures Occupied(s.knownShips[i].hits) == Occupied(p)
  {
    LegalPlacementCount(Occupied(p));
    SubsetCount(Occupied(s.knownShips[i].hits), Occupied(p));
  }

  /** What a reveal changes. */
  lemma RevealResult(env: Crypto, s: BoardState, mv: Move)
    requires CanMove(s) && mv.PositionReveal? && ApplyPositionReveal(env, mv, s).Some?
    ensures GetPhase(s) in {Shoot, Answering, SecondRevealPosition} && mv.position.Some?
    ensures var t := ApplyPositionReveal(env, mv, s).value;
      && t.knownShips == s.knownShips && t.currentShot == s.currentShot
      && t.winner == Judge(s, mv.position.value)
      && (t.winner.None? ==>
            && GetPhase(s) != SecondRevealPosition && GetPhase(t) == SecondRevealPosition
            && t.turn == Some(Opponent(s.turn.value)) && t.positions[s.turn.value] == mv.position.value)
  {
    hide LegalPlacement, Occupied, BlobOf;
  }

  lemma HonestReveal(env: Crypto, s: BoardState, mv: Move, i: Player, p: Word)
    requires Inv(s) && CanMove(s) && HonestSoFar(i, p, s) && HonestMove(i, p, s, mv)
    requires LegalPlacement(Occupied(p))
    requires mv.PositionReveal? && ApplyPositionReveal(env, mv, s).Some?
    ensures var t := ApplyPositionReveal(env, mv, s).value;
      && (t.winner.None? ==> CanMove(t) && HonestSoFar(i, p, t))
      && (t.winner == Some(Opponent(i)) ==> FairLoss(i, p, s, mv))
  {
    hide LegalPlacement, Occupied, ApplyPositionReveal, Inv, HonestSoFar, HonestMove, FairLoss, Judge;
    RevealInv(env, s, mv);
    RevealResult(env, s, mv);
    if s.turn.value == i {
      OwnReveal(env, s, mv, i, p);
    } else {
      OthersReveal(env, s, mv, i, p);
    }
  }

  /** The honest player's own reveal never loses. */
  lemma OwnReveal(env: Crypto, s: BoardState, mv: Move, i: Player, p: Word)
    requires Inv(s) && CanMove(s) && HonestSoFar(i, p, s) && HonestMove(i, p, s, mv)
    requires LegalPlacement(Occupied(p))
    requires mv.PositionReveal? && ApplyPositionReveal(env, mv, s).Some?
    requires s.turn.value == i
    ensures var t := ApplyPositionReveal(env, mv, s).value;
      t.winner != Some(Opponent(i)) && (t.winner.None? ==> CanMove(t) && HonestSoFar(i, p, t))
  {
    hide LegalPlacement, Occupied, ApplyPositionReveal, Judge, AnswersMatch;
    var t := ApplyPositionReveal(env, mv, s).value;
    RevealInv(env, s, mv);
    RevealResult(env, s, mv);
    HonestRevealPasses(s, i, p);
    assert t.winner.None? ==> PendingCells(i, s) == {} && PendingCells(i, t) == {};
  }

  /** The opponent's reveal wins only as a fair loss. */
  lemma OthersReveal(env: Crypto, s: BoardState, mv: Move, i: Player, p: Word)
    requires Inv(s) && CanMove(s) && HonestSoFar(i, p, s) && HonestMove(i, p, s, mv)
    requires LegalPlacement(Occupied(p))
    requires mv.PositionReveal? && ApplyPositionReveal(env, mv, s).Some?
    requires s.turn.value == Opponent(i)
    ensures var t := ApplyPositionReveal(env, mv, s).value;
      && (t.winner.None? ==> CanMove(t) && HonestSoFar(i, p, t))
      && (t.winner == Some(Opponent(i)) ==> FairLoss(i, p, s, mv))
  {
    hide LegalPlacement, Occupied, ApplyPositionReveal, Inv, HonestSoFar, HonestMove, FairLoss, Judge;
    var t := ApplyPositionReveal(env, mv, s).value;
    RevealInv(env, s, mv);
    RevealResult(env, s, mv);
    if t.winner == Some(Opponent(i)) {
      JudgedForOther(s, mv, i, p);
    } else if t.winner.None? {
      NotYetJudged(env, s, mv, i, p);
    }
  }

  lemma JudgedForOther(s: BoardState, mv: Move, i: Player, p: Word)
    requires Inv(s) && CanMove(s) && HonestSoFar(i, p, s) && LegalPlacement(Occupied(p))
    requires s.turn.value == Opponent(i) && GetPhase(s) in {Shoot, Answering, SecondRevealPosition}
    requires mv.PositionReveal? && mv.position.Some? && Judge(s, mv.position.value) == Some(Opponent(i))
    ensures |s.knownShips| == 2 && FairLoss(i, p, s, mv)
  {
    hide LegalPlacement, Occupied, HonestSoFar, AnswersMatch, KnownConsistent;
    if GetPhase(s) != SecondRevealPosition {
      AllHit(s, i, p);
    } else {
      FirstRevealIs(s, i, p);
    }
  }

  lemma FirstRevealIs(s: BoardState, i: Player, p: Word)
    requires CanMove(s) && HonestSoFar(i, p, s) && GetPhase(s) == SecondRevealPosition && s.turn.value != i
    ensures s.positions[i] == p
  {
    hide Occupied;
  }

  lemma NotYetJudged(env: Crypto, s: BoardState, mv: Move, i: Player, p: Word)
    requires Inv(s) && CanMove(s) && HonestSoFar(i, p, s) && HonestMove(i, p, s, mv)
    requires LegalPlacement(Occupied(p))
    requires mv.PositionReveal? && ApplyPositionReveal(env, mv, s).Some?
    requires s.turn.value == Opponent(i)
    requires ApplyPositionReveal(env, mv, s).value.winner.None?
    ensures var t := ApplyPositionReveal(env, mv, s).value; CanMove(t) && HonestSoFar(i, p, t)
  {
    hide LegalPlacement, Occupied, ApplyPositionReveal, Judge;
    var t := ApplyPositionReveal(env, mv, s).value;
    RevealInv(env, s, mv);
    RevealResult(env, s, mv);
    assert PendingCells(i, s) == {} && PendingCells(i, t) == {};
  }

  lemma HonestAnswer(s: BoardState, mv: Move, i: Player, p: Word)
    requires Inv(s) && CanMove(s) && HonestSoFar(i, p, s) && HonestMove(i, p, s, mv)
    requires mv.Answer? && ApplyReply(mv, s).Some?
    ensures CanMove(ApplyReply(mv, s).value) && HonestSoFar(i, p, ApplyReply(mv, s).value)
  {
    AnswerInv(s, mv);
    var t := ApplyReply(mv, s).value;
    var x := Target(s.currentShot.value);
    var g := Occupied(s.knownShips[i].guessed);
    assert PendingCells(i, t) == {};
    if s.turn.value == i {
      assert g == (g - {x}) + {x};
      assert Occupied(t.knownShips[i].hits) == Occupied(p) * g;
    }
  }

  lemma HonestShot(s: BoardState, mv: Move, i: Player, p: Word)
    requires Inv(s) && CanMove(s) && HonestSoFar(i, p, s)
    requires mv.Shot? && ApplyShot(mv, s).Some?
    ensures CanMove(ApplyShot(mv, s).value) && HonestSoFar(i, p, ApplyShot(mv, s).value)
  {
    var t := ApplyShot(mv, s).value;
    TargetOnBoard(mv.location.value);
    if s.turn.value != i {
      var x := Target(mv.location.value);
      assert PendingCells(i, t) == {x};
      assert Occupied(t.knownShips[i].guessed) - {x} == Occupied(s.knownShips[i].guessed);
    }
  }

  lemma HonestOpening(env: Crypto, s: BoardState, mv: Move, i: Player, p: Word)
    requires Inv(s) && CanMove(s) && (mv.PositionCommitment? || mv.SeedReveal?)
    requires ApplyMove(env, s, mv).Some?
    ensures ApplyMove(env, s, mv).value.winner.None?
    ensures CanMove(ApplyMove(env, s, mv).value) && HonestSoFar(i, p, ApplyMove(env, s, mv).value)
  {
    OccupiedOfZero();
  }

  /** One move of a game in which player i is honest: the record stays truthful, losses are fair. */
  lemma HonestStep(env: Crypto, s: BoardState, mv: Move, i: Player, p: Word)
    requires Inv(s) && CanMove(s) && HonestSoFar(i, p, s) && HonestMove(i, p, s, mv)
    requires LegalPlacement(Occupied(p)) && ApplyMove(env, s, mv).Some?
    ensures var t := ApplyMove(env, s, mv).value;
      && (t.winner.None? ==> CanMove(t) && HonestSoFar(i, p, t))
      && (t.winner == Some(Opponent(i)) ==> |s.knownShips| == 2 && FairLoss(i, p, s, mv))
  {
    hide LegalPlacement, Occupied, HonestSoFar, FairLoss, ApplyPositionReveal, ApplyPositionCommitment, ApplySeedReveal;
    match mv
    case PositionCommitment(_, _, _) => HonestOpening(env, s, mv, i, p);
    case SeedReveal(_) => HonestOpening(env, s, mv, i, p);
    case Shot(_) => HonestShot(s, mv, i, p);
    case Answer(_) => HonestAnswer(s, mv, i, p);
    case PositionReveal(_, _) => RevealResult(env, s, mv); HonestReveal(env, s, mv, i, p);
  }

  ghost predicate HonestRun(env: Crypto, states: seq<BoardState>, moves: seq<Move>, i: Player, p: Word) {
    && IsRun(env, states, moves)
    && forall k :: 0 <= k < |moves| ==> HonestMove(i, p, states[k], moves[k])
  }

  lemma HonestInitially(i: Player, p: Word)
    ensures CanMove(InitialBoardState()) && HonestSoFar(i, p, InitialBoardState())
  {
  }

  lemma {:induction false} HonestRunSoFar(
      env: Crypto, states: seq<BoardState>, moves: seq<Move>, i: Player, p: Word, k: nat)
    requires HonestRun(env, states, moves, i, p) && LegalPlacement(Occupied(p))
    requires k <= |moves| && CanMove(states[k])
    ensures HonestSoFar(i, p, states[k])
  {
    hide ApplyMove, Inv, HonestSoFar, LegalPlacement, FairLoss;
    if k == 0 {
      HonestInitially(i, p);
    } else {
      assert Accepts(env, states[k - 1], moves[k - 1], states[k - 1 + 1]);
      RunInv(env, states, moves, k - 1);
      HonestRunSoFar(env, states, moves, i, p, k - 1);
      HonestStep(env, states[k - 1], moves[k - 1], i, p);
      NoTurnIffWinner(states[k]);
    }
  }

  /**
   * A player with a legal placement who answers truthfully before revealing it loses only by the
   * opponent's own correct reveal: either every one of the player's ship cells had been hit, or
   * the player had revealed first with fewer hits than there are ship cells.
   */
  lemma HonestLosesOnlyFairly(env: Crypto, states: seq<BoardState>, moves: seq<Move>, i: Player, p: Word)
    requires HonestRun(env, states, moves, i, p) && LegalPlacement(Occupied(p))
    requires states[|moves|].winner == Some(Opponent(i))
    ensures |moves| > 0
    ensures var s := states[|moves| - 1];
      CanMove(s) && |s.knownShips| == 2 && FairLoss(i, p, s, moves[|moves| - 1])
  {
    var n := |moves| - 1;
    assert n >= 0;
    RunInv(env, states, moves, n);
    HonestRunSoFar(env, states, moves, i, p, n);
    HonestStep(env, states[n], moves[n], i, p);
  }

  /** If in addition the player reveals first only once all opponent ships are hit... */
  predicate PatientMove(i: Player, s: BoardState, mv: Move) {
    CanMove(s) && s.turn.value == i && mv.PositionReveal? && GetPhase(s) == Shoot && |s.knownShips| == 2 ==>
      |Occupied(s.knownShips[Opponent(i)].hits)| >= TOTAL_SHIP_CELLS
  }

  /**
   * What this comes to in one state, for a legal position: a truthful record, no own reveal that
   * left the game open, and a lost game only with every own ship cell hit.
   */
  ghost predicate FairSoFar(i: Player, p: Word, s: BoardState) {
    && LegalPlacement(Occupied(p))
    && (CanMove(s) ==> HonestSoFar(i, p, s))
    && (CanMove(s) && GetPhase(s) == SecondRevealPosition ==> s.turn.value == i)
    && (s.winner == Some(Opponent(i)) ==>
          |s.knownShips| == 2 && Occupied(s.knownShips[i].hits) == Occupied(p))
  }

  /** A move of such a player, or any move of the opponent, keeps it so. */
  lemma FairStep(env: Crypto, s: BoardState, mv: Move, i: Player, p: Word)
    requires Inv(s) && CanMove(s) && FairSoFar(i, p, s)
    requires HonestMove(i, p, s, mv) && PatientMove(i, s, mv) && ApplyMove(env, s, mv).Some?
    ensures FairSoFar(i, p, ApplyMove(env, s, mv).value)
  {
    hide Inv, HonestSoFar, LegalPlacement, Occupied, ApplyMove, HonestMove, PatientMove;
    var t := ApplyMove(env, s, mv).value;
    HonestStep(env, s, mv, i, p);
    StepInv(env, s, mv);
    if t.winner == Some(Opponent(i)) {
      RevealKeepsRecord(env, s, mv);
    } else if CanMove(t) {
      WinnerWithTurn(t);
      PatientRevealWins(env, s, mv, i, p);
    }
  }

  lemma WinnerWithTurn(s: BoardState)
    requires CanMove(s)
    ensures s.winner.None?
  {
  }

  /** A patient player's own reveal never leaves it to the opponent to reveal as well. */
  lemma PatientRevealWins(env: Crypto, s: BoardState, mv: Move, i: Player, p: Word)
    requires Inv(s) && CanMove(s) && HonestMove(i, p, s, mv) && PatientMove(i, s, mv)
    requires ApplyMove(env, s, mv).Some?
    ensures var t := ApplyMove(env, s, mv).value;
      CanMove(t) && GetPhase(t) == SecondRevealPosition ==> t.turn.value == i
  {
    hide LegalPlacement, Occupied, BlobOf, AnswersMatch;
  }

  lemma {:induction false} RunFair(
      env: Crypto, states: seq<BoardState>, moves: seq<Move>, i: Player, p: Word, k: nat)
    requires HonestRun(env, states, moves, i, p) && LegalPlacement(Occupied(p)) && k <= |moves|
    requires forall j :: 0 <= j < |moves| ==> PatientMove(i, states[j], moves[j])
    ensures FairSoFar(i, p, states[k])
  {
    hide ApplyMove, Inv, HonestSoFar, LegalPlacement, HonestMove, PatientMove, FairSoFar;
    if k == 0 {
      FairInitially(i, p);
    } else {
      RunFair(env, states, moves, i, p, k - 1);
      RunInv(env, states, moves, k - 1);
      assert Accepts(env, states[k - 1], moves[k - 1], states[k - 1 + 1]);
      FairStep(env, states[k - 1], moves[k - 1], i, p);
    }
  }

  lemma FairInitially(i: Player, p: Word)
    requires LegalPlacement(Occupied(p))
    ensures FairSoFar(i, p, InitialBoardState())
  {
    HonestInitially(i, p);
  }

  /** ...then the only way to lose is to have every ship cell hit. */
  lemma PatientLosesOnlyWhenSunk(env: Crypto, states: seq<BoardState>, moves: seq<Move>, i: Player, p: Word)
    requires HonestRun(env, states, moves, i, p) && LegalPlacement(Occupied(p))
    requires forall k :: 0 <= k < |moves| ==> PatientMove(i, states[k], moves[k])
    requires states[|moves|].winner == Some(Opponent(i))
    ensures |states[|moves|].knownShips| == 2
    ensures Occupied(states[|moves|].knownShips[i].hits) == Occupied(p)
  {
    RunFair(env, states, moves, i, p, |moves|);
  }

  lemma RevealKeepsRecord(env: Crypto, s: BoardState, mv: Move)
    requires CanMove(s) && mv.PositionReveal? && ApplyMove(env, s, mv).Some?
    ensures ApplyMove(env, s, mv).value.knownShips == s.knownShips
  {
  }
}
