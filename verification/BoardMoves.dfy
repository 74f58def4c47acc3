/**
 * The move functions as the source writes them: each takes a copy of the state message and
 * updates it field by field.
 */
module BoardMoves {
  import opened Wrappers
  import opened Bits
  import opened Coords
  import opened Fleets
  import opened Grids
  import opened Placement
  import opened Board

  /** The mutable state message. */
  class BoardProto {
    var turn: Option<Uint32>
    var positionHashes: seq<string>
    var seedHash0: Option<string>
    var seed1: Option<string>
    var knownShips: seq<Known>
    var currentShot: Option<Uint32>
    var positions: seq<Word>
    var winner: Option<Uint32>

    constructor (s: BoardState)
      ensures Value() == s
    {
      turn, positionHashes, seedHash0, seed1 := s.turn, s.positionHashes, s.seedHash0, s.seed1;
      knownShips, currentShot, positions, winner := s.knownShips, s.currentShot, s.positions, s.winner;
    }

    function Value(): BoardState
      reads this
    {
      BoardState(turn, positionHashes, seedHash0, seed1, knownShips, currentShot, positions, winner)
    }
  }

  /** The count over the known ships and revealed positions, as the loops of the source do it. */
  method ComputeTurnCount(participants: nat, s: BoardState) returns (cnt: int)
    requires participants == 1 || participants == 2
    requires IsValid(participants, s)
    ensures cnt == if participants == 1 then 0 else Board.TurnCount(s)
  {
    if participants == 1 {
      return 0;
    }
    var shots := 0;
    for i := 0 to |s.knownShips|
      invariant shots == Shots(s.knownShips[..i])
    {
      var guesses := new Grid(s.knownShips[i].guessed);
      var ones := guesses.CountOnes();
      assert s.knownShips[..i + 1][..i] == s.knownShips[..i];
      shots := shots + ones;
    }
    assert s.knownShips[..|s.knownShips|] == s.knownShips;
    match GetPhase(s)
    case FirstCommitment => cnt := 1;
    case SecondCommitment => cnt := 2;
    case FirstRevealSeed => cnt := 3;
    case Shoot => cnt := 4 + 2 * shots;
    case Answering => cnt := 4 + 2 * shots - 1;
    case InvalidPhase => assert false;
    case SecondRevealPosition | Finished =>
      cnt := 4 + 2 * shots;
      if s.currentShot.Some? {
        cnt := cnt - 1;
      }
      var base := cnt;
      for i := 0 to |s.positions|
        invariant cnt == base + Revealed(s.positions[..i])
      {
        assert s.positions[..i + 1][..i] == s.positions[..i];
        if s.positions[i] % 0x1_0000_0000 != 0 {
          cnt := cnt + 1;
        }
      }
      assert s.positions[..|s.positions|] == s.positions;
  }

  method ApplyPositionCommitment(mv: Move, phase: Phase, newState: BoardProto) returns (ok: bool)
    requires mv.PositionCommitment? && phase == GetPhase(newState.Value())
    modifies newState
    ensures ok <==> Board.ApplyPositionCommitment(mv, old(newState.Value())).Some?
    ensures ok ==> newState.Value() == Board.ApplyPositionCommitment(mv, old(newState.Value())).value
  {
    if |mv.positionHash.GetOr("")| != NUM_BYTES {
      return false;
    }
    match phase
    case FirstCommitment =>
      if |mv.seedHash.GetOr("")| != NUM_BYTES || mv.seed.Some? {
        return false;
      }
      newState.turn := Some(1);
      newState.positionHashes := newState.positionHashes + [mv.positionHash.GetOr("")];
      assert |newState.positionHashes| == 1;
      newState.seedHash0 := Some(mv.seedHash.GetOr(""));
      return true;
    case SecondCommitment =>
      if mv.seedHash.Some? || |mv.seed.GetOr("")| > NUM_BYTES {
        return false;
      }
      newState.turn := Some(0);
      newState.positionHashes := newState.positionHashes + [mv.positionHash.GetOr("")];
      assert |newState.positionHashes| == 2;
      newState.seed1 := Some(mv.seed.GetOr(""));
      return true;
    case _ =>
      return false;
  }

  method ApplySeedReveal(env: Crypto, mv: Move, phase: Phase, newState: BoardProto) returns (ok: bool)
    requires mv.SeedReveal? && phase == GetPhase(newState.Value())
    modifies newState
    ensures ok <==> Board.ApplySeedReveal(env, mv, old(newState.Value())).Some?
    ensures ok ==> newState.Value() == Board.ApplySeedReveal(env, mv, old(newState.Value())).value
  {
    var seed := mv.revealedSeed.GetOr("");
    if phase != FirstRevealSeed || |seed| > NUM_BYTES {
      return false;
    }
    if !CheckHashValue(env.sha(seed), newState.seedHash0.GetOr("")) {
      return false;
    }
    var bit := env.coin(env.sha(seed + newState.seed1.GetOr("")));
    newState.turn := Some(if bit then 1 else 0);
    newState.seedHash0 := None;
    newState.seed1 := None;
    ghost var before := newState.knownShips;
    for i := 0 to 2
      invariant newState.knownShips == before + seq(i, _ => Known(0, 0))
      invariant newState.Value() == old(newState.Value()).(turn := newState.turn, seedHash0 := None,
                  seed1 := None, knownShips := newState.knownShips)
      invariant newState.turn == Some(if bit then 1 else 0)
    {
      newState.knownShips := newState.knownShips + [Known(0, 0)];
    }
    assert seq(2, _ => Known(0, 0)) == [Known(0, 0), Known(0, 0)];
    return true;
  }

  method ApplyShot(mv: Move, phase: Phase, newState: BoardProto) returns (ok: bool)
    requires mv.Shot? && CanMove(newState.Value()) && phase == GetPhase(newState.Value())
    modifies newState
    ensures ok <==> Board.ApplyShot(mv, old(newState.Value())).Some?
    ensures ok ==> newState.Value() == Board.ApplyShot(mv, old(newState.Value())).value
  {
    if phase != Shoot || mv.location.None? {
      return false;
    }
    var target := Target(mv.location.value);
    if !target.IsOnBoard() {
      return false;
    }
    var otherPlayer := 1 - newState.turn.value;
    var known := newState.knownShips[otherPlayer];
    var guessed := new Grid(known.guessed);
    if guessed.Get(target) {
      return false;
    }
    assert target !in Occupied(known.guessed);
    guessed.Set(target);
    SameCells(guessed.bits, WithCell(known.guessed, target));
    newState.turn := Some(otherPlayer);
    newState.currentShot := Some(target.GetIndex());
    newState.knownShips := newState.knownShips[otherPlayer := known.(guessed := guessed.bits)];
    return true;
  }

  method ApplyReply(mv: Move, phase: Phase, newState: BoardProto) returns (ok: bool)
    requires mv.Answer? && CanMove(newState.Value()) && phase == GetPhase(newState.Value())
    modifies newState
    ensures ok <==> Board.ApplyReply(mv, old(newState.Value())).Some?
    ensures ok ==> newState.Value() == Board.ApplyReply(mv, old(newState.Value())).value
  {
    if phase != Answering || mv.reply.None? {
      return false;
    }
    assert newState.currentShot.Some?;
    var target := Target(newState.currentShot.value);
    if !target.IsOnBoard() {
      return false;
    }
    newState.currentShot := None;
    match mv.reply.value
    case Hit =>
      var turn := newState.turn.value;
      var known := newState.knownShips[turn];
      var hits := new Grid(known.hits);
      if hits.Get(target) {
        return false;
      }
      assert target !in Occupied(known.hits);
      hits.Set(target);
      SameCells(hits.bits, WithCell(known.hits, target));
      newState.knownShips := newState.knownShips[turn := known.(hits := hits.bits)];
      newState.turn := Some(1 - turn);
      return true;
    case Miss =>
      return true;
    case Invalid =>
      return false;
  }

  /** Judges a revealed position: whether the record of answers is usable, and who has won. */
  method CheckReveal(s: BoardState, position: Word) returns (sound: bool, winner: Option<Player>)
    requires CanMove(s) && GetPhase(s) in {Shoot, Answering, SecondRevealPosition}
    ensures var known := s.knownShips[s.turn.value];
      sound <==> !LegalPlacement(Occupied(position)) || Occupied(known.hits) <= Occupied(known.guessed)
    ensures sound ==> winner == Judge(s, position)
  {
    hide LegalPlacement, Occupied;
    var turn, otherPlayer := s.turn.value, 1 - s.turn.value;
    var phase, known := GetPhase(s), s.knownShips[turn];
    winner := None;
    var legal := VerifyPositionOfShips(position);
    if !legal {
      winner := Some(otherPlayer);
    } else {
      AndNotCells(known.hits, known.guessed);
      if AndNot(known.hits, known.guessed) != 0 {
        return false, winner;
      }
      AnswersMeaning(position, known.guessed, known.hits);
      if !VerifyPositionForAnswers(position, known.guessed, known.hits) {
        winner := Some(otherPlayer);
      }
    }
    if winner.None? && phase != SecondRevealPosition {
      var hits := new Grid(s.knownShips[otherPlayer].hits);
      var ones := hits.CountOnes();
      if ones >= TOTAL_SHIP_CELLS {
        winner := Some(turn);
      }
    }
    if winner.None? && phase == SecondRevealPosition {
      winner := Some(turn);
    }
    sound := true;
  }

  method ApplyPositionReveal(env: Crypto, mv: Move, phase: Phase, newState: BoardProto) returns (ok: bool)
    requires mv.PositionReveal? && CanMove(newState.Value()) && phase == GetPhase(newState.Value())
    modifies newState
    ensures ok <==> Board.ApplyPositionReveal(env, mv, old(newState.Value())).Some?
    ensures ok ==> newState.Value() == Board.ApplyPositionReveal(env, mv, old(newState.Value())).value
  {
    hide LegalPlacement, Occupied, BlobOf, Bit, Judge;
    if phase !in {Shoot, Answering, SecondRevealPosition} {
      return false;
    }
    if mv.position.None? || |mv.salt.GetOr("")| > NUM_BYTES {
      return false;
    }
    var turn := newState.turn.value;
    var g := new Grid(mv.position.value);
    var blob := g.Blob();
    if !CheckHashValue(env.sha(blob + mv.salt.GetOr("")), newState.positionHashes[turn]) {
      return false;
    }
    var before := newState.Value();
    ghost var r := Record(before, mv.position.value);
    if |newState.positions| == 0 {
      newState.positions := [0, 0];
    }
    assert |newState.positions| == 2 && newState.positions[turn] == 0;
    newState.positions := newState.positions[turn := mv.position.value];
    newState.positionHashes := newState.positionHashes[turn := ""];

    assert newState.Value() == r;
    var sound, winner := CheckReveal(before, g.bits);
    if !sound {
      return false;
    }
    newState.winner := winner;
    if newState.winner.Some? {
      newState.turn := None;
      newState.positionHashes := Cleared(newState.positionHashes);
      return true;
    }
    newState.turn := Some(1 - turn);
    return true;
  }

  /** Applies a move to a copy of the state, dispatching on the kind of move. */
  method ApplyMoveProto(env: Crypto, s: BoardState, mv: Move) returns (ok: bool, newState: BoardProto)
    requires CanMove(s)
    ensures fresh(newState)
    ensures ok <==> Board.ApplyMove(env, s, mv).Some?
    ensures ok ==> newState.Value() == Board.ApplyMove(env, s, mv).value
  {
    newState := new BoardProto(s);
    var phase := GetPhase(s);
    match mv
    case PositionCommitment(_, _, _) => ok := ApplyPositionCommitment(mv, phase, newState);
    case SeedReveal(_) => ok := ApplySeedReveal(env, mv, phase, newState);
    case Shot(_) => ok := ApplyShot(mv, phase, newState);
    case Answer(_) => ok := ApplyReply(mv, phase, newState);
    case PositionReveal(_, _) => ok := ApplyPositionReveal(env, mv, phase, newState);
    case NotSet => ok := false;
  }
}
