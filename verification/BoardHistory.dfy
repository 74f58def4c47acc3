/**
 * Games told by their moves (ships/board.cpp): which moves are accepted, who is on turn after them,
 * and that the record of shots and hits, and the verdict at the end, are what the moves say.
 */
module BoardHistories {
  import opened Wrappers
  import opened Bits
  import opened Coords
  import opened Fleets
  import opened Grids
  import opened Board
  import opened BoardRuns

  // ---- Which states are valid ----

  /** A state is over with a winner and nobody on turn, or it is a player's turn in one of these phases. */
  lemma ValidStates(s: BoardState)
    ensures IsValidForTwo(s) <==>
      || (s.winner.Some? && s.turn.None?)
      || (&& s.winner.None? && (s.turn == Some(0) || s.turn == Some(1))
          && (|| (|s.positionHashes| == 0 && s.turn == Some(0))
              || (|s.positionHashes| == 1 && s.turn == Some(1))
              || (|s.positionHashes| == 2 && |s.knownShips| == 0 && s.turn == Some(0))
              || (|s.positionHashes| == 2 && |s.knownShips| == 2 && |s.positions| == 0)
              || (|s.positionHashes| == 2 && |s.knownShips| == 2 && |s.positions| == 2
                  && s.positions[s.turn.value] == 0 && s.positions[1 - s.turn.value] != 0)))
  {
  }

  // ---- Which moves are accepted ----

  /** The first two moves: each player's hash, and of the first player also the hash of a seed. */
  lemma AcceptedCommitments(env: Crypto, s: BoardState, mv: Move)
    requires Inv(s) && CanMove(s) && mv.PositionCommitment?
    ensures ApplyMove(env, s, mv).Some? <==>
      && mv.positionHash.Some? && |mv.positionHash.value| == 32
      && (|| (s.positionHashes == [] && mv.seedHash.Some? && |mv.seedHash.value| == 32 && mv.seed.None?)
          || (|s.positionHashes| == 1 && mv.seedHash.None? && (mv.seed.Some? ==> |mv.seed.value| <= 32)))
    ensures ApplyMove(env, s, mv).Some? ==>
      var t := ApplyMove(env, s, mv).value;
      && t.positionHashes == s.positionHashes + [mv.positionHash.value] && t.turn == Some(1 - s.turn.value)
      && t.knownShips == s.knownShips && t.positions == s.positions && t.winner.None?
      && (if s.positionHashes == [] then t.seedHash0 == mv.seedHash && t.seed1 == s.seed1
          else t.seedHash0 == s.seedHash0 && t.seed1 == Some(mv.seed.GetOr("")))
  {
  }

  /** The first player reveals the seed; both seeds together toss the coin for the first shot. */
  lemma AcceptedSeeds(env: Crypto, s: BoardState, mv: Move)
    requires Inv(s) && CanMove(s) && mv.SeedReveal?
    ensures var seed := mv.revealedSeed.GetOr("");
      && (ApplyMove(env, s, mv).Some? <==>
            && |s.positionHashes| == 2 && s.knownShips == [] && |seed| <= 32
            && |env.sha(seed)| == 32 && s.seedHash0 == Some(env.sha(seed)))
      && (ApplyMove(env, s, mv).Some? ==>
            var t := ApplyMove(env, s, mv).value;
            && t.turn == Some(if env.coin(env.sha(seed + s.seed1.GetOr(""))) then 1 else 0)
            && t.knownShips == [Known(0, 0), Known(0, 0)]
            && t.positionHashes == s.positionHashes && t.positions == s.positions && t.winner.None?)
  {
    assert [] + [Known(0, 0), Known(0, 0)] == [Known(0, 0), Known(0, 0)];
  }

  /** Shots go to cells of the opponent that were not shot at before, and then the opponent is on turn. */
  lemma AcceptedShots(env: Crypto, s: BoardState, mv: Move)
    requires CanMove(s) && mv.Shot?
    ensures ApplyMove(env, s, mv).Some? <==>
      && GetPhase(s) == Shoot && mv.location.Some? && mv.location.value < 64
      && FromIndex(mv.location.value) !in Occupied(s.knownShips[Opponent(s.turn.value)].guessed)
    ensures ApplyMove(env, s, mv).Some? ==>
      var t, i := ApplyMove(env, s, mv).value, s.turn.value;
      && t.turn == Some(Opponent(i)) && t.currentShot == mv.location && |t.knownShips| == 2
      && Occupied(t.knownShips[Opponent(i)].guessed)
         == Occupied(s.knownShips[Opponent(i)].guessed) + {FromIndex(mv.location.value)}
      && t.knownShips[Opponent(i)].hits == s.knownShips[Opponent(i)].hits && t.knownShips[i] == s.knownShips[i]
      && t.positionHashes == s.positionHashes && t.positions == s.positions && t.winner.None?
  {
    if mv.location.Some? {
      TargetOnBoard(mv.location.value);
    }
  }

  /** Only a hit is recorded, and who was hit loses the turn: the shooter shoots again. */
  lemma AcceptedAnswers(env: Crypto, s: BoardState, mv: Move)
    requires Inv(s) && CanMove(s) && mv.Answer?
    ensures ApplyMove(env, s, mv).Some? <==> GetPhase(s) == Answering && (mv.reply == Some(Hit) || mv.reply == Some(Miss))
    ensures ApplyMove(env, s, mv).Some? ==> AnswerTurn(s, ApplyMove(env, s, mv).value, mv.reply.value)
    ensures ApplyMove(env, s, mv).Some? ==>
      var t, i := ApplyMove(env, s, mv).value, s.turn.value;
      && s.currentShot.Some? && s.currentShot.value < 64 && t.currentShot.None? && |t.knownShips| == 2
      && Occupied(t.knownShips[i].hits) == Occupied(s.knownShips[i].hits) +
           (if mv.reply == Some(Hit) then {FromIndex(s.currentShot.value)} else {})
      && t.knownShips[i].guessed == s.knownShips[i].guessed && t.knownShips[Opponent(i)] == s.knownShips[Opponent(i)]
      && t.positionHashes == s.positionHashes && t.positions == s.positions && t.winner.None?
  {
    hide LegalPlacement;
    if GetPhase(s) == Answering {
      TargetOnBoard(s.currentShot.value);
    }
  }

  predicate AnswerTurn(s: BoardState, t: BoardState, reply: Reply)
    requires CanMove(s)
  {
    t.turn == if reply == Hit then Some(Opponent(s.turn.value)) else s.turn
  }

  /** Also outside of games, the turn passes exactly with a hit. */
  lemma TurnAfterAnswer(env: Crypto, s: BoardState, mv: Move)
    requires CanMove(s) && mv.Answer? && ApplyMove(env, s, mv).Some?
    ensures GetPhase(s) == Answering && mv.reply.Some? && mv.reply != Some(Invalid)
    ensures mv.reply == Some(Hit) ==> ApplyMove(env, s, mv).value.turn == Some(Opponent(s.turn.value))
    ensures mv.reply == Some(Miss) ==> ApplyMove(env, s, mv).value.turn == s.turn
  {
  }

  /** A position can be revealed whenever its owner is on turn after the opening, if it is the committed one. */
  lemma AcceptedReveals(env: Crypto, s: BoardState, mv: Move)
    requires Inv(s) && CanMove(s) && mv.PositionReveal?
    ensures ApplyMove(env, s, mv).Some? <==>
      && |s.knownShips| == 2 && mv.position.Some? && |mv.salt.GetOr("")| <= 32
      && |s.positionHashes[s.turn.value]| == 32
      && env.sha(BlobOf(mv.position.value, 8) + mv.salt.GetOr("")) == s.positionHashes[s.turn.value]
    ensures ApplyMove(env, s, mv).Some? ==>
      var t := ApplyMove(env, s, mv).value;
      && t.knownShips == s.knownShips && t.currentShot == s.currentShot
      && t.turn == (if t.winner.None? then Some(Opponent(s.turn.value)) else None)
  {
    hide LegalPlacement, BlobOf;
  }

  // ---- What the moves say ----

  /** The cells that were shot at on player j's board in the first k moves. */
  function ShotAt(states: seq<BoardState>, moves: seq<Move>, j: Player, k: nat): set<Coord>
    requires k <= |moves| <= |states|
  {
    set n | 0 <= n < k && moves[n].Shot? && moves[n].location.Some? && states[n].turn == Some(Opponent(j)) ::
      FromIndex(moves[n].location.value)
  }

  /** Those that player j called hits: the cell of a hit is that of the shot just before. */
  function HitAt(states: seq<BoardState>, moves: seq<Move>, j: Player, k: nat): set<Coord>
    requires k <= |moves| <= |states|
  {
    set n | 0 < n < k && moves[n] == Answer(Some(Hit)) && states[n].turn == Some(j)
      && moves[n - 1].Shot? && moves[n - 1].location.Some? :: FromIndex(moves[n - 1].location.value)
  }

  lemma ShotAtNext(states: seq<BoardState>, moves: seq<Move>, j: Player, k: nat)
    requires k < |moves| <= |states|
    ensures ShotAt(states, moves, j, k + 1) == ShotAt(states, moves, j, k) +
      (if moves[k].Shot? && moves[k].location.Some? && states[k].turn == Some(Opponent(j))
       then {FromIndex(moves[k].location.value)} else {})
  {
    if moves[k].Shot? && moves[k].location.Some? && states[k].turn == Some(Opponent(j)) {
      assert FromIndex(moves[k].location.value) in ShotAt(states, moves, j, k + 1);
    }
  }

  lemma HitAtNext(states: seq<BoardState>, moves: seq<Move>, j: Player, k: nat)
    requires k < |moves| <= |states|
    ensures HitAt(states, moves, j, k + 1) == HitAt(states, moves, j, k) +
      (if k > 0 && moves[k] == Answer(Some(Hit)) && states[k].turn == Some(j)
          && moves[k - 1].Shot? && moves[k - 1].location.Some?
       then {FromIndex(moves[k - 1].location.value)} else {})
  {
    if k > 0 && moves[k] == Answer(Some(Hit)) && states[k].turn == Some(j)
      && moves[k - 1].Shot? && moves[k - 1].location.Some? {
      assert FromIndex(moves[k - 1].location.value) in HitAt(states, moves, j, k + 1);
    }
  }

  /** A shot waits for its answer only right after it was made. */
  lemma ShotJustMade(env: Crypto, states: seq<BoardState>, moves: seq<Move>, k: nat)
    requires IsRun(env, states, moves) && k < |moves| && GetPhase(states[k]) == Answering
    ensures k > 0 && moves[k - 1].Shot? && moves[k - 1].location.Some?
    ensures states[k].currentShot == moves[k - 1].location
  {
    hide LegalPlacement, BlobOf;
    assert Accepts(env, states[k], moves[k], states[k + 1]);
    assert k > 0;
    RunInv(env, states, moves, k - 1);
    assert Accepts(env, states[k - 1], moves[k - 1], states[k - 1 + 1]);
    OnlyShotsWait(env, states[k - 1], moves[k - 1]);
  }

  lemma OnlyShotsWait(env: Crypto, s: BoardState, mv: Move)
    requires Inv(s) && CanMove(s) && ApplyMove(env, s, mv).Some?
    requires GetPhase(ApplyMove(env, s, mv).value) == Answering
    ensures mv.Shot? && mv.location.Some? && ApplyMove(env, s, mv).value.currentShot == mv.location
  {
    hide Judge, BlobOf, Occupied;
    if mv.Shot? {
      TargetOnBoard(mv.location.value);
    } else if mv.PositionReveal? {
      RevealResult(env, s, mv);
    }
  }

  /** What each kind of move does to the records, or leaves of them. */
  lemma RecordStep(env: Crypto, s: BoardState, mv: Move, j: Player)
    requires Inv(s) && CanMove(s) && ApplyMove(env, s, mv).Some?
    ensures var t := ApplyMove(env, s, mv).value;
      && (|s.knownShips| == 0 || |s.knownShips| == 2)
      && (|t.knownShips| == 2 && |s.knownShips| == 0 ==> t.knownShips[j] == Known(0, 0))
      && (|s.knownShips| == 0 ==> !mv.Shot? && !mv.Answer?)
      && (|s.knownShips| == 2 ==>
            && |t.knownShips| == 2
            && Occupied(t.knownShips[j].guessed) == Occupied(s.knownShips[j].guessed) +
                 (if mv.Shot? && mv.location.Some? && s.turn == Some(Opponent(j))
                  then {FromIndex(mv.location.value)} else {})
            && Occupied(t.knownShips[j].hits) == Occupied(s.knownShips[j].hits) +
                 (if mv == Answer(Some(Hit)) && s.turn == Some(j) && s.currentShot.Some?
                  then {FromIndex(s.currentShot.value)} else {})
            && (mv == Answer(Some(Hit)) ==> GetPhase(s) == Answering))
  {
    hide Occupied, LegalPlacement, ApplyMove, Judge;
    match mv
    case PositionCommitment(_, _, _) => AcceptedCommitments(env, s, mv);
    case SeedReveal(_) => AcceptedSeeds(env, s, mv);
    case Shot(_) => AcceptedShots(env, s, mv);
    case Answer(_) => AcceptedAnswers(env, s, mv);
    case PositionReveal(_, _) => AcceptedReveals(env, s, mv);
    case NotSet => NothingSet(env, s);
  }

  lemma NothingSet(env: Crypto, s: BoardState)
    requires CanMove(s)
    ensures ApplyMove(env, s, NotSet).None?
  {
  }

  /** At every point of a game, the record of player j's board is what the moves before it say. */
  lemma {:induction false} RecordIsHistory(env: Crypto, states: seq<BoardState>, moves: seq<Move>, j: Player, k: nat)
    requires IsRun(env, states, moves) && k <= |moves|
    ensures |states[k].knownShips| == 2 ==>
      && Occupied(states[k].knownShips[j].guessed) == ShotAt(states, moves, j, k)
      && Occupied(states[k].knownShips[j].hits) == HitAt(states, moves, j, k)
    ensures |states[k].knownShips| != 2 ==> ShotAt(states, moves, j, k) == HitAt(states, moves, j, k) == {}
  {
    hide Occupied, Inv, ApplyMove, ShotAt, HitAt;
    if k == 0 {
      NothingShot(states, moves, j);
    } else {
      var m := k - 1;
      RecordIsHistory(env, states, moves, j, m);
      RunInv(env, states, moves, m);
      assert Accepts(env, states[m], moves[m], states[m + 1]);
      RecordStep(env, states[m], moves[m], j);
      ShotAtNext(states, moves, j, m);
      HitAtNext(states, moves, j, m);
      OccupiedOfZero();
      if moves[m] == Answer(Some(Hit)) {
        ShotJustMade(env, states, moves, m);
      }
    }
  }

  lemma NothingShot(states: seq<BoardState>, moves: seq<Move>, j: Player)
    requires |moves| <= |states|
    ensures ShotAt(states, moves, j, 0) == HitAt(states, moves, j, 0) == {}
  {
  }

  // ---- Turns ----

  /** After a shot and its answer, the shooter is on turn again exactly if the cell became a hit. */
  lemma ShooterGoesOnAfterHit(env: Crypto, states: seq<BoardState>, moves: seq<Move>, n: nat)
    requires IsRun(env, states, moves) && n + 1 < |moves| && moves[n].Shot? && moves[n + 1].Answer?
    ensures states[n].turn.Some? && states[n].turn.value < 2 && moves[n].location.Some?
    ensures var i, cell := states[n].turn.value, FromIndex(moves[n].location.value);
      && states[n + 1].turn == Some(Opponent(i)) && |states[n + 2].knownShips| == 2
      && (states[n + 2].turn == Some(i) <==> cell in Occupied(states[n + 2].knownShips[Opponent(i)].hits))
      && (states[n + 2].turn == Some(Opponent(i)) <==> cell !in Occupied(states[n + 2].knownShips[Opponent(i)].hits))
  {
    hide Occupied, LegalPlacement, ApplyMove, Inv;
    RunInv(env, states, moves, n);
    RunInv(env, states, moves, n + 1);
    assert Accepts(env, states[n], moves[n], states[n + 1]);
    assert Accepts(env, states[n + 1], moves[n + 1], states[n + 1 + 1]);
    AcceptedShots(env, states[n], moves[n]);
    AcceptedAnswers(env, states[n + 1], moves[n + 1]);
    HitsAreGuessed(states[n], Opponent(states[n].turn.value));
  }

  lemma HitsAreGuessed(s: BoardState, j: Player)
    requires Inv(s) && GetPhase(s) == Shoot
    ensures |s.knownShips| == 2 && Occupied(s.knownShips[j].hits) <= Occupied(s.knownShips[j].guessed)
  {
    hide Occupied;
  }

  // ---- The opening ----

  /** The first three moves are the commitments and the seed; what the seeds toss decides who shoots first. */
  lemma SeedsDecideWhoStarts(env: Crypto, states: seq<BoardState>, moves: seq<Move>)
    requires IsRun(env, states, moves) && |moves| >= 3
    ensures moves[0].PositionCommitment? && moves[1].PositionCommitment? && moves[2].SeedReveal?
    ensures var seed0, seed1 := moves[2].revealedSeed.GetOr(""), moves[1].seed.GetOr("");
      && moves[0].seedHash == Some(env.sha(seed0))
      && states[3].turn == Some(if env.coin(env.sha(seed0 + seed1)) then 1 else 0)
    ensures moves[0].positionHash.Some? && moves[1].positionHash.Some?
    ensures states[3].positionHashes == [moves[0].positionHash.value, moves[1].positionHash.value]
  {
    hide Inv, ApplyMove, LegalPlacement, Occupied;
    RunInv(env, states, moves, 0);
    RunInv(env, states, moves, 1);
    RunInv(env, states, moves, 2);
    assert Accepts(env, states[0], moves[0], states[0 + 1]);
    assert Accepts(env, states[1], moves[1], states[1 + 1]);
    assert Accepts(env, states[2], moves[2], states[2 + 1]);
    OpeningKind(env, states[0], moves[0]);
    OpeningKind(env, states[1], moves[1]);
    OpeningKind(env, states[2], moves[2]);
    AcceptedCommitments(env, states[0], moves[0]);
    AcceptedCommitments(env, states[1], moves[1]);
    AcceptedSeeds(env, states[2], moves[2]);
  }

  /** Which move each phase of the opening takes. */
  lemma OpeningKind(env: Crypto, s: BoardState, mv: Move)
    requires Inv(s) && CanMove(s) && ApplyMove(env, s, mv).Some?
    ensures |s.positionHashes| < 2 && s.winner.None? ==> mv.PositionCommitment?
    ensures |s.positionHashes| == 2 && s.knownShips == [] ==> mv.SeedReveal?
  {
  }

  /** The hash of player i stays what it was, until that player's reveal takes it away. */
  lemma HashStep(env: Crypto, s: BoardState, mv: Move, i: Player)
    requires Inv(s) && CanMove(s) && ApplyMove(env, s, mv).Some? && |s.positionHashes| == 2
    ensures var t := ApplyMove(env, s, mv).value;
      && |t.positionHashes| == 2
      && (t.winner.None? && !(mv.PositionReveal? && s.turn == Some(i)) ==> t.positionHashes[i] == s.positionHashes[i])
      && (t.winner.None? && mv.PositionReveal? ==> GetPhase(t) == SecondRevealPosition && t.turn == Some(Opponent(s.turn.value)))
      && (GetPhase(s) == SecondRevealPosition ==> mv.PositionReveal? && t.winner.Some?)
  {
    hide LegalPlacement, Occupied, BlobOf, AnswersMatch;
  }

  /** Until player i reveals, the hash on the board is the one from that player's first move. */
  lemma {:induction false} HashesStay(env: Crypto, states: seq<BoardState>, moves: seq<Move>, i: Player, k: nat)
    requires IsRun(env, states, moves) && 3 <= k <= |moves|
    ensures |states[k].positionHashes| == 2 && moves[i].PositionCommitment? && moves[i].positionHash.Some?
    ensures states[k].winner.None? && (GetPhase(states[k]) == SecondRevealPosition ==> states[k].turn == Some(i)) ==>
      states[k].positionHashes[i] == moves[i].positionHash.value
  {
    hide Inv, ApplyMove;
    SeedsDecideWhoStarts(env, states, moves);
    if k > 3 {
      var m := k - 1;
      HashesStay(env, states, moves, i, m);
      RunInv(env, states, moves, m);
      assert Accepts(env, states[m], moves[m], states[m + 1]);
      HashStep(env, states[m], moves[m], i);
      NoTurnIffWinner(states[m]);
    }
  }

  /** Whoever reveals a position in a game reveals the one that the player's first move committed to. */
  lemma RevealedIsCommitted(env: Crypto, states: seq<BoardState>, moves: seq<Move>, n: nat)
    requires IsRun(env, states, moves) && n < |moves| && moves[n].PositionReveal?
    ensures n >= 3 && states[n].turn.Some? && states[n].turn.value < 2 && moves[n].position.Some?
    ensures moves[states[n].turn.value].PositionCommitment?
    ensures moves[states[n].turn.value].positionHash
         == Some(env.sha(BlobOf(moves[n].position.value, 8) + moves[n].salt.GetOr("")))
  {
    hide Inv, ApplyMove, BlobOf;
    RunInv(env, states, moves, n);
    assert Accepts(env, states[n], moves[n], states[n + 1]);
    AcceptedReveals(env, states[n], moves[n]);
    NotInOpening(env, states, moves, n);
    NoTurnIffWinner(states[n]);
    HashesStay(env, states, moves, states[n].turn.value, n);
  }

  lemma NotInOpening(env: Crypto, states: seq<BoardState>, moves: seq<Move>, n: nat)
    requires IsRun(env, states, moves) && n < |moves| && |states[n].knownShips| == 2
    ensures n >= 3
  {
    hide Inv, ApplyMove, LegalPlacement, Occupied;
    if 0 < n {
      RunInv(env, states, moves, 0);
      assert Accepts(env, states[0], moves[0], states[0 + 1]);
      OpeningKind(env, states[0], moves[0]);
      AcceptedCommitments(env, states[0], moves[0]);
    }
    if 1 < n {
      RunInv(env, states, moves, 1);
      assert Accepts(env, states[1], moves[1], states[1 + 1]);
      OpeningKind(env, states[1], moves[1]);
      AcceptedCommitments(env, states[1], moves[1]);
    }
  }

  // ---- The verdict ----

  /** The moves show that the player answered the shots by this position, all of them. */
  ghost predicate AnsweredBy(position: Word, states: seq<BoardState>, moves: seq<Move>, j: Player, k: nat)
    requires k <= |moves| <= |states|
  {
    HitAt(states, moves, j, k) == Occupied(position) * ShotAt(states, moves, j, k)
  }

  /**
   * A reveal decides the game as follows: an illegal position, or one that does not fit the player's
   * answers, loses. Otherwise the player wins if the other one has revealed already, or has all 18 cells
   * hit; and if not, the other one is to reveal.
   */
  lemma VerdictOfReveal(env: Crypto, states: seq<BoardState>, moves: seq<Move>, n: nat)
    requires IsRun(env, states, moves) && n < |moves| && moves[n].PositionReveal?
    ensures states[n].turn.Some? && states[n].turn.value < 2 && moves[n].position.Some?
    ensures var i: Player, p := states[n].turn.value, moves[n].position.value;
      states[n + 1].winner ==
        if !LegalPlacement(Occupied(p)) || !AnsweredBy(p, states, moves, i, n) then Some(Opponent(i))
        else if n > 0 && moves[n - 1].PositionReveal? then Some(i)
        else if |HitAt(states, moves, Opponent(i), n)| >= 18 then Some(i)
        else None
    ensures states[n + 1].winner.None? ==> states[n + 1].turn == Some(Opponent(states[n].turn.value))
  {
    hide Inv, ApplyMove, BlobOf, LegalPlacement, Occupied, ShotAt, HitAt;
    RunInv(env, states, moves, n);
    assert Accepts(env, states[n], moves[n], states[n + 1]);
    AcceptedReveals(env, states[n], moves[n]);
    RevealResultOf(env, states[n], moves[n]);
    var i: Player := states[n].turn.value;
    RecordIsHistory(env, states, moves, i, n);
    RecordIsHistory(env, states, moves, Opponent(i), n);
    SecondRevealFollowsFirst(env, states, moves, n);
  }

  lemma RevealResultOf(env: Crypto, s: BoardState, mv: Move)
    requires CanMove(s) && mv.PositionReveal? && ApplyMove(env, s, mv).Some?
    ensures GetPhase(s) in {Shoot, Answering, SecondRevealPosition} && mv.position.Some?
    ensures var p, i := mv.position.value, s.turn.value;
      ApplyMove(env, s, mv).value.winner ==
        if !LegalPlacement(Occupied(p)) || Occupied(s.knownShips[i].hits) != Occupied(p) * Occupied(s.knownShips[i].guessed)
        then Some(Opponent(i))
        else if GetPhase(s) == SecondRevealPosition then Some(i)
        else if |Occupied(s.knownShips[Opponent(i)].hits)| >= 18 then Some(i)
        else None
  {
    hide LegalPlacement, Occupied, BlobOf;
  }

  /** The second player reveals right after the first one, and otherwise nobody has revealed yet. */
  lemma SecondRevealFollowsFirst(env: Crypto, states: seq<BoardState>, moves: seq<Move>, n: nat)
    requires IsRun(env, states, moves) && n < |moves|
    ensures GetPhase(states[n]) == SecondRevealPosition <==> n > 0 && moves[n - 1].PositionReveal?
  {
    hide Inv, ApplyMove, BlobOf, LegalPlacement, Occupied;
    assert Accepts(env, states[n], moves[n], states[n + 1]);
    if n > 0 {
      RunInv(env, states, moves, n - 1);
      assert Accepts(env, states[n - 1], moves[n - 1], states[n - 1 + 1]);
      EntersSecondReveal(env, states[n - 1], moves[n - 1]);
      NoTurnIffWinner(states[n]);
    }
  }

  lemma EntersSecondReveal(env: Crypto, s: BoardState, mv: Move)
    requires Inv(s) && CanMove(s) && ApplyMove(env, s, mv).Some? && ApplyMove(env, s, mv).value.winner.None?
    ensures GetPhase(ApplyMove(env, s, mv).value) == SecondRevealPosition <==> mv.PositionReveal?
  {
    hide LegalPlacement, Occupied, BlobOf, AnswersMatch;
  }
}
