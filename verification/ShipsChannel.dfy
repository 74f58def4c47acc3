/** The automatic part of a player's moves, on the board and on the chain (ships/channel.cpp). */
module ShipsChannels {
  import opened Wrappers
  import opened Bits
  import opened Coords
  import opened Fleets
  import opened Grids
  import opened Placement
  import opened Board
  import opened BoardRuns

  /** What a player's daemon keeps to itself; the position is zero while it is not set. */
  datatype Secret = Secret(position: Word, salt: string, seed0: string) {
    predicate IsPositionSet() {
      position != 0
    }

    function PositionHash(env: Crypto): string {
      env.sha(BlobOf(position, 8) + salt)
    }

    function RevealMove(): Move {
      PositionReveal(Some(position), Some(salt))
    }
  }

  /** The player may shoot, but has hit every ship cell of the opponent already. */
  predicate AllOthersHit(i: Player, s: BoardState) {
    && s.winner.None? && GetPhase(s) == Shoot
    && |Occupied(s.knownShips[Opponent(i)].hits)| >= TOTAL_SHIP_CELLS
  }

  /** What the source CHECKs before it looks for a move: our turn, and our position where needed. */
  predicate MayAsk(secret: Secret, i: Player, s: BoardState) {
    && CanMove(s) && s.turn.value == i
    && (GetPhase(s) in {Answering, SecondRevealPosition} || AllOthersHit(i, s) ==> secret.IsPositionSet())
    && (GetPhase(s) == Answering ==> Target(s.currentShot.value).IsOnBoard())
  }

  /** The automatic move, if there is one, and the secret with the seed that may have been drawn. */
  function AutoMove(env: Crypto, secret: Secret, i: Player, s: BoardState, rnd: string): (Option<Move>, Secret)
    requires MayAsk(secret, i, s)
  {
    match GetPhase(s)
    case FirstCommitment =>
      if !secret.IsPositionSet() then (None, secret)
      else (Some(PositionCommitment(Some(secret.PositionHash(env)), Some(env.sha(rnd)), None)),
            secret.(seed0 := rnd))
    case SecondCommitment =>
      if !secret.IsPositionSet() then (None, secret)
      else (Some(PositionCommitment(Some(secret.PositionHash(env)), None, Some(rnd))), secret)
    case FirstRevealSeed => (Some(SeedReveal(Some(secret.seed0))), secret)
    case Shoot =>
      if AllOthersHit(i, s) then (Some(secret.RevealMove()), secret)
      else (None, secret)
    case Answering =>
      var hit := Target(s.currentShot.value) in Occupied(secret.position);
      (Some(Answer(Some(if hit then Hit else Miss))), secret)
    case _ => (Some(secret.RevealMove()), secret)
  }

  /** The player's reaction on the chain: none, declaring the game lost, or a CHECK that fails. */
  datatype Closing = NoClosing | DeclaresLoss | NoLoser

  /** The other player than the winner: an unsigned difference, converted to int. */
  function Loser(winner: Uint32): int {
    ToInt((1 - winner) % 0x1_0000_0000)
  }

  function OnChainMove(names: seq<string>, playerName: string, s: BoardState, closePending: bool): Closing {
    if GetPhase(s) != Finished then NoClosing
    else
      var loser := Loser(s.winner.value);
      if loser < 0 || loser >= |names| then NoLoser
      else if names[loser] != playerName || closePending then NoClosing
      else DeclaresLoss
  }

  /** The CHECKs on the loser fail exactly in finished states whose winner has no opponent in the channel. */
  lemma LoserCheckFails(names: seq<string>, playerName: string, s: BoardState, closePending: bool)
    requires |names| == 1 || |names| == 2
    ensures OnChainMove(names, playerName, s, closePending) == NoLoser <==>
      s.winner.Some? && (s.winner.value > 1 || 1 - s.winner.value >= |names|)
  {
  }

  /** In a state of a game, exactly the loser declares the loss, unless that is on its way already. */
  lemma LoserDeclares(names: seq<string>, i: Player, s: BoardState, closePending: bool)
    requires |names| == 2 && names[0] != names[1] && Inv(s)
    ensures OnChainMove(names, names[i], s, closePending) ==
      if s.winner == Some(Opponent(i)) && !closePending then DeclaresLoss else NoClosing
  {
  }

  /** The daemon's game-specific object. */
  class ShipsChannel {
    const playerName: string
    var position: Word
    var positionSalt: string
    var seed0: string
    /** The transaction that declares the loss, if one was sent. */
    var txidClose: Option<string>

    constructor (playerName: string)
      ensures this.playerName == playerName && Value() == Secret(0, "", "") && txidClose == None
    {
      this.playerName := playerName;
      position, positionSalt, seed0, txidClose := 0, "", "", None;
    }

    function Value(): Secret
      reads this
    {
      Secret(position, positionSalt, seed0)
    }

    /** Stores a legal position once; an illegal one is refused and nothing changes. */
    method SetPosition(g: Word, salt: string)
      requires !Value().IsPositionSet()
      modifies this`position, this`positionSalt
      ensures LegalPlacement(Occupied(g)) ==>
        Value() == old(Value()).(position := g, salt := salt) && Value().IsPositionSet()
      ensures !LegalPlacement(Occupied(g)) ==> Value() == old(Value())
    {
      var legal := VerifyPositionOfShips(g);
      if !legal {
        return;
      }
      position := g;
      positionSalt := salt;
      LegalPositionHasLowHalf(g);
    }

    method InternalAutoMove(env: Crypto, i: Player, s: BoardState, rnd: string) returns (mv: Option<Move>)
      requires MayAsk(Value(), i, s)
      modifies this`seed0
      ensures (mv, Value()) == AutoMove(env, old(Value()), i, s, rnd)
    {
      var phase := GetPhase(s);
      if phase == FirstCommitment {
        if position == 0 {
          return None;
        }
        seed0 := rnd;
        return Some(PositionCommitment(Some(Value().PositionHash(env)), Some(env.sha(seed0)), None));
      } else if phase == SecondCommitment {
        if position == 0 {
          return None;
        }
        return Some(PositionCommitment(Some(Value().PositionHash(env)), None, Some(rnd)));
      } else if phase == FirstRevealSeed {
        return Some(SeedReveal(Some(seed0)));
      } else if phase == Shoot {
        var hits := new Grid(s.knownShips[Opponent(i)].hits);
        var ones := hits.CountOnes();
        if ones >= TOTAL_SHIP_CELLS {
          return Some(Value().RevealMove());
        }
        return None;
      } else if phase == Answering {
        var g := new Grid(position);
        var target := Target(s.currentShot.value);
        var hit := g.Get(target);
        assert hit <==> target in Occupied(position);
        return Some(Answer(Some(if hit then Hit else Miss)));
      } else {
        return Some(Value().RevealMove());
      }
    }

    predicate ClosePending(isPending: string -> bool)
      reads this
    {
      txidClose.Some? && isPending(txidClose.value)
    }

    /** Declares a lost game on the chain; sending that gives a transaction id, or fails. */
    method MaybeOnChainMove(names: seq<string>, s: BoardState, isPending: string -> bool, sent: Option<string>)
      returns (closing: Closing)
      modifies this`txidClose
      ensures closing == OnChainMove(names, playerName, s, old(ClosePending(isPending)))
      ensures txidClose == if closing == DeclaresLoss then sent else old(txidClose)
    {
      if GetPhase(s) != Finished {
        return NoClosing;
      }
      var loser := Loser(s.winner.value);
      if loser < 0 || loser >= |names| {
        return NoLoser;
      }
      if names[loser] != playerName {
        return NoClosing;
      }
      if txidClose.Some? && isPending(txidClose.value) {
        return NoClosing;
      }
      txidClose := sent;
      return DeclaresLoss;
    }
  }

  /** Whatever the daemon moves by itself is honest, and reveals first only to win. */
  lemma AutoMoveHonest(env: Crypto, secret: Secret, i: Player, s: BoardState, rnd: string)
    requires MayAsk(secret, i, s) && AutoMove(env, secret, i, s, rnd).0.Some?
    ensures var mv := AutoMove(env, secret, i, s, rnd).0.value;
      HonestMove(i, secret.position, s, mv) && PatientMove(i, s, mv)
  {
  }

  /** Only a position that is not set yet, or a shot that is the player's choice, is waited for. */
  predicate AwaitsPlayer(secret: Secret, i: Player, s: BoardState) {
    || (|s.positionHashes| < 2 && !secret.IsPositionSet())
    || (|s.positionHashes| == 2 && |s.knownShips| == 2 && s.positions == [] && s.currentShot.None?
        && |Occupied(s.knownShips[Opponent(i)].hits)| < 18)
  }

  /** In every other state of a game with the player on turn, an automatic move is found. */
  lemma AutoMoveUnlessAwaited(env: Crypto, secret: Secret, i: Player, s: BoardState, rnd: string)
    requires Inv(s) && MayAsk(secret, i, s)
    ensures AutoMove(env, secret, i, s, rnd).0.None? <==> AwaitsPlayer(secret, i, s)
    ensures var (mv, next) := AutoMove(env, secret, i, s, rnd);
      && (s.positionHashes == [] && mv.Some? ==> next.seed0 == rnd)
      && (|s.positionHashes| == 1 && mv.Some? ==> mv.value.PositionCommitment? && mv.value.seed == Some(rnd))
  {
    hide Occupied, LegalPlacement;
  }

  ghost predicate HashLength(env: Crypto) {
    forall x :: |env.sha(x)| == NUM_BYTES
  }

  predicate HasRevealed(i: Player, s: BoardState) {
    |s.positions| == 2 && s.positions[i] != 0
  }

  /** The position commitment of player i in the state is that of the secret. */
  predicate CommittedPosition(env: Crypto, secret: Secret, i: Player, s: BoardState) {
    i < |s.positionHashes| && s.winner.None? && !HasRevealed(i, s) ==>
      s.positionHashes[i] == secret.PositionHash(env)
  }

  /** Both commitments of player i in the state are those of the secret. */
  predicate Committed(env: Crypto, secret: Secret, i: Player, s: BoardState) {
    && CommittedPosition(env, secret, i, s)
    && (i == 0 && GetPhase(s) in {SecondCommitment, FirstRevealSeed} ==>
          s.seedHash0 == Some(env.sha(secret.seed0)))
  }

  /** A seed that is to be revealed now is the one that was committed to. */
  predicate SeedKept(env: Crypto, secret: Secret, s: BoardState) {
    GetPhase(s) == FirstRevealSeed ==> s.seedHash0 == Some(env.sha(secret.seed0))
  }

  /** Nothing of player i is on the board yet. */
  predicate Unplayed(i: Player, s: BoardState) {
    s.winner.None? && |s.positionHashes| <= i
  }

  /** In a game, no CHECK fails when the player is on turn, and without a position nothing is due. */
  lemma OnTurnMayAsk(env: Crypto, secret: Secret, i: Player, s: BoardState, rnd: string)
    requires Inv(s) && CanMove(s) && s.turn.value == i
    requires secret.IsPositionSet() || Unplayed(i, s)
    ensures MayAsk(secret, i, s)
    ensures !secret.IsPositionSet() ==> AutoMove(env, secret, i, s, rnd).0.None?
  {
    hide Occupied;
    if GetPhase(s) == Answering {
      TargetOnBoard(s.currentShot.value);
    }
  }

  /** Player i commits to the secret, whenever a commitment is made at all. */
  predicate KeepsSecret(env: Crypto, secret: Secret, i: Player, s: BoardState, mv: Move) {
    CanMove(s) && s.turn.value == i && mv.PositionCommitment? ==>
      && mv.positionHash == Some(secret.PositionHash(env))
      && (GetPhase(s) == FirstCommitment ==> mv.seedHash == Some(env.sha(secret.seed0)))
  }

  /** In a game, every automatic move is accepted by the board rules. */
  lemma AutoMoveAccepted(env: Crypto, secret: Secret, i: Player, s: BoardState, rnd: string)
    requires HashLength(env) && Inv(s) && MayAsk(secret, i, s)
    requires |secret.salt| <= NUM_BYTES && |secret.seed0| <= NUM_BYTES && |rnd| <= NUM_BYTES
    requires Committed(env, secret, i, s)
    ensures var mv := AutoMove(env, secret, i, s, rnd).0;
      mv.Some? ==> ApplyMove(env, s, mv.value).Some?
  {
    hide Inv, AutoMove, ApplyMove;
    AutoMoveAcceptedIff(env, secret, i, s, rnd);
  }

  /** With the player's own position commitment, exactly when the seed is not another one by now. */
  lemma AutoMoveAcceptedIff(env: Crypto, secret: Secret, i: Player, s: BoardState, rnd: string)
    requires HashLength(env) && Inv(s) && MayAsk(secret, i, s)
    requires |secret.salt| <= NUM_BYTES && |secret.seed0| <= NUM_BYTES && |rnd| <= NUM_BYTES
    requires CommittedPosition(env, secret, i, s)
    ensures var mv := AutoMove(env, secret, i, s, rnd).0;
      mv.Some? ==> (ApplyMove(env, s, mv.value).Some? <==> SeedKept(env, secret, s))
  {
    hide Occupied, LegalPlacement;
    if GetPhase(s) == Answering {
      TargetOnBoard(s.currentShot.value);
    } else if GetPhase(s) in {Shoot, SecondRevealPosition} {
      assert !HasRevealed(i, s);
      assert s.positionHashes[i] == secret.PositionHash(env);
      assert Occupied(s.knownShips[i].hits) <= Occupied(s.knownShips[i].guessed);
    }
  }

  lemma CommittedStep(env: Crypto, secret: Secret, i: Player, s: BoardState, mv: Move)
    requires Inv(s) && CanMove(s) && ApplyMove(env, s, mv).Some?
    requires Committed(env, secret, i, s) && KeepsSecret(env, secret, i, s, mv)
    ensures Committed(env, secret, i, ApplyMove(env, s, mv).value)
  {
    hide Occupied, LegalPlacement, BlobOf;
    var t := ApplyMove(env, s, mv).value;
    if mv.PositionReveal? && t.winner.None? {
      LegalPositionHasLowHalf(mv.position.value);
      assert HasRevealed(s.turn.value, t);
    }
  }

  lemma {:induction false} RunCommitted(
      env: Crypto, states: seq<BoardState>, moves: seq<Move>, secret: Secret, i: Player, k: nat)
    requires IsRun(env, states, moves) && k <= |moves|
    requires forall j :: 0 <= j < |moves| ==> KeepsSecret(env, secret, i, states[j], moves[j])
    ensures Committed(env, secret, i, states[k])
  {
    hide Inv, ApplyMove;
    if k > 0 {
      RunCommitted(env, states, moves, secret, i, k - 1);
      RunInv(env, states, moves, k - 1);
      assert Accepts(env, states[k - 1], moves[k - 1], states[k - 1 + 1]);
      CommittedStep(env, secret, i, states[k - 1], moves[k - 1]);
    }
  }

  /** At every point of a game in which the player commits to the secret, automoves are legal. */
  lemma AutoMoveNeverRejected(
      env: Crypto, states: seq<BoardState>, moves: seq<Move>, secret: Secret, i: Player, k: nat, rnd: string)
    requires HashLength(env) && IsRun(env, states, moves) && k <= |moves|
    requires forall j :: 0 <= j < |moves| ==> KeepsSecret(env, secret, i, states[j], moves[j])
    requires |secret.salt| <= NUM_BYTES && |secret.seed0| <= NUM_BYTES && |rnd| <= NUM_BYTES
    requires MayAsk(secret, i, states[k])
    ensures var mv := AutoMove(env, secret, i, states[k], rnd).0;
      mv.Some? ==> ApplyMove(env, states[k], mv.value).Some?
  {
    RunInv(env, states, moves, k);
    RunCommitted(env, states, moves, secret, i, k);
    AutoMoveAccepted(env, secret, i, states[k], rnd);
  }

  /** An automatic move commits to the secret that the daemon has after it. */
  lemma AutoMoveCommits(env: Crypto, secret: Secret, i: Player, s: BoardState, rnd: string)
    requires Inv(s) && MayAsk(secret, i, s) && Committed(env, secret, i, s)
    requires var mv := AutoMove(env, secret, i, s, rnd).0; mv.Some? && ApplyMove(env, s, mv.value).Some?
    ensures var (mv, next) := AutoMove(env, secret, i, s, rnd);
      Committed(env, next, i, ApplyMove(env, s, mv.value).value)
  {
    hide Occupied, LegalPlacement, BlobOf, ApplyMove, Inv;
    var (mv, next) := AutoMove(env, secret, i, s, rnd);
    CommittedStep(env, next, i, s, mv.value);
  }

  /** The state in which the first player, who opened with the seed r, is to reveal it. */
  function Answered(env: Crypto, secret: Secret, r: string, commitment: string, seed1: string): BoardState {
    BoardState(Some(0), [secret.PositionHash(env), commitment], Some(env.sha(r)), Some(seed1), [], None, [], None)
  }

  /**
   * The daemon keeps only one seed, and draws it anew whenever it makes the first commitment. If it
   * does so for another reinitialisation, it can no longer reveal the seed of the first.
   */
  lemma SeedOverwritten(
      env: Crypto, secret: Secret, r: string, another: string, commitment: string, seed1: string, rnd: string)
    requires HashLength(env) && secret.IsPositionSet() && env.sha(r) != env.sha(another)
    requires |r| <= NUM_BYTES && |another| <= NUM_BYTES && |seed1| <= NUM_BYTES && |commitment| == NUM_BYTES
    ensures var start := InitialBoardState();
      && MayAsk(secret, 0, start)
      && var (opening, first) := AutoMove(env, secret, 0, start, r);
         var second := AutoMove(env, first, 0, start, another).1;
      && opening.Some? && ApplyMove(env, start, opening.value).Some?
      && var s := ApplyMove(env, start, opening.value).value;
         var answer := PositionCommitment(Some(commitment), None, Some(seed1));
         var t := Answered(env, secret, r, commitment, seed1);
      && CanMove(s) && s.turn == Some(1) && ApplyMove(env, s, answer) == Some(t)
      && Inv(t) && CanMove(t) && CommittedPosition(env, second, 0, t)
      && MayAsk(first, 0, t) && MayAsk(second, 0, t)
      && AutoMove(env, first, 0, t, rnd).0.Some? && AutoMove(env, second, 0, t, rnd).0.Some?
      && ApplyMove(env, t, AutoMove(env, first, 0, t, rnd).0.value).Some?
      && ApplyMove(env, t, AutoMove(env, second, 0, t, rnd).0.value).None?
  {
    var hash := secret.PositionHash(env);
    assert [] + [hash] == [hash] && [hash] + [commitment] == [hash, commitment];
  }

  // ---- Games that the daemon plays ----

  /** The player shoots, or the daemon makes the automatic move; only that may change the secret. */
  ghost predicate DaemonStep(env: Crypto, i: Player, s: BoardState, mv: Move, secret: Secret, next: Secret) {
    if CanMove(s) && s.turn.value == i then
      || (mv.Shot? && next == secret)
      || (MayAsk(secret, i, s) && exists rnd :: AutoMove(env, secret, i, s, rnd) == (Some(mv), next))
    else next == secret
  }

  /** A game of player i, whose daemon starts with a position that SetPosition accepted. */
  ghost predicate DaemonRun(
      env: Crypto, states: seq<BoardState>, moves: seq<Move>, secrets: seq<Secret>, i: Player) {
    && IsRun(env, states, moves) && |secrets| == |states|
    && LegalPlacement(Occupied(secrets[0].position))
    && forall k :: 0 <= k < |moves| ==> DaemonStep(env, i, states[k], moves[k], secrets[k], secrets[k + 1])
  }

  lemma DaemonStepHonest(env: Crypto, i: Player, s: BoardState, mv: Move, secret: Secret, next: Secret)
    requires DaemonStep(env, i, s, mv, secret, next)
    ensures HonestMove(i, secret.position, s, mv) && PatientMove(i, s, mv) && next.position == secret.position
  {
    hide Occupied;
    if CanMove(s) && s.turn.value == i && !mv.Shot? {
      var rnd :| AutoMove(env, secret, i, s, rnd) == (Some(mv), next);
      AutoMoveHonest(env, secret, i, s, rnd);
    }
  }

  lemma {:induction false} PositionStays(
      env: Crypto, states: seq<BoardState>, moves: seq<Move>, secrets: seq<Secret>, i: Player, k: nat)
    requires DaemonRun(env, states, moves, secrets, i) && k <= |moves|
    ensures secrets[k].position == secrets[0].position
  {
    hide DaemonStep, ApplyMove, LegalPlacement;
    if k > 0 {
      PositionStays(env, states, moves, secrets, i, k - 1);
      assert DaemonStep(env, i, states[k - 1], moves[k - 1], secrets[k - 1], secrets[k - 1 + 1]);
      DaemonStepHonest(env, i, states[k - 1], moves[k - 1], secrets[k - 1], secrets[k]);
    }
  }

  /** Whoever only shoots, and leaves the rest to the daemon, loses only with every ship cell hit. */
  lemma DaemonLosesOnlyWhenSunk(
      env: Crypto, states: seq<BoardState>, moves: seq<Move>, secrets: seq<Secret>, i: Player)
    requires DaemonRun(env, states, moves, secrets, i)
    requires states[|moves|].winner == Some(Opponent(i))
    ensures |states[|moves|].knownShips| == 2
    ensures Occupied(states[|moves|].knownShips[i].hits) == Occupied(secrets[0].position)
  {
    hide DaemonStep, ApplyMove, LegalPlacement, HonestMove, PatientMove;
    var p := secrets[0].position;
    forall k | 0 <= k < |moves| ensures HonestMove(i, p, states[k], moves[k]) && PatientMove(i, states[k], moves[k]) {
      PositionStays(env, states, moves, secrets, i, k);
      assert DaemonStep(env, i, states[k], moves[k], secrets[k], secrets[k + 1]);
      DaemonStepHonest(env, i, states[k], moves[k], secrets[k], secrets[k + 1]);
    }
    PatientLosesOnlyWhenSunk(env, states, moves, i, p);
  }
}
