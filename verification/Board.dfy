/** The Battleships board state, its phases and its moves (ships/board.cpp). */
module Board {
  import opened Wrappers
  import opened Bits
  import opened Coords
  import opened Fleets
  import opened Grids

  const NUM_BYTES := 32

  type Uint32 = n: nat | n < 0x1_0000_0000
  /** A participant index of a two-player channel. */
  type Player = i: nat | i < 2

  /** What is known about one player's ships: the cells guessed, and those that were hits. */
  datatype Known = Known(guessed: Word, hits: Word)

  datatype BoardState = BoardState(
    turn: Option<Uint32>,
    positionHashes: seq<string>,
    seedHash0: Option<string>,
    seed1: Option<string>,
    knownShips: seq<Known>,
    currentShot: Option<Uint32>,
    positions: seq<Word>,
    winner: Option<Uint32>)

  datatype Reply = Invalid | Hit | Miss

  datatype Move =
    | PositionCommitment(positionHash: Option<string>, seedHash: Option<string>, seed: Option<string>)
    | SeedReveal(revealedSeed: Option<string>)
    | Shot(location: Option<Uint32>)
    | Answer(reply: Option<Reply>)
    | PositionReveal(position: Option<Word>, salt: Option<string>)
    | NotSet

  datatype Phase =
    | InvalidPhase | FirstCommitment | SecondCommitment | FirstRevealSeed
    | Shoot | Answering | SecondRevealPosition | Finished

  /** SHA-256, and the first random bit of the generator seeded with a hash. */
  datatype Crypto = Crypto(sha: string -> string, coin: string -> bool)

  function Opponent(i: Player): Player { 1 - i }

  /** C++ conversion of a 32-bit field to int. */
  function ToInt(n: Uint32): int {
    if n < 0x8000_0000 then n else n - 0x1_0000_0000
  }

  function Target(location: Uint32): Coord {
    FromIndex(ToInt(location))
  }

  lemma TargetOnBoard(location: Uint32)
    ensures Target(location).IsOnBoard() <==> location < CELLS
    ensures location < CELLS ==> Target(location).GetIndex() == location
  {
    IndexIsOnBoard(ToInt(location));
  }

  function InitialBoardState(): BoardState {
    BoardState(Some(0), [], None, None, [], None, [], None)
  }

  function GetPhase(s: BoardState): Phase {
    if s.winner.Some? then Finished
    else if |s.positionHashes| == 0 then FirstCommitment
    else if |s.positionHashes| == 1 then SecondCommitment
    else if |s.positionHashes| != 2 then InvalidPhase
    else if |s.knownShips| == 0 then FirstRevealSeed
    else if |s.knownShips| != 2 then InvalidPhase
    else if |s.positions| == 2 then SecondRevealPosition
    else if |s.positions| != 0 then InvalidPhase
    else if s.currentShot.Some? then Answering
    else Shoot
  }

  /** Validity of a state for a channel with the given number of participants. */
  predicate IsValid(participants: nat, s: BoardState)
    requires participants == 1 || participants == 2
  {
    participants == 1 || IsValidForTwo(s)
  }

  predicate IsValidForTwo(s: BoardState) {
    var phase := GetPhase(s);
    if phase == InvalidPhase then false
    else if s.turn.None? || phase == Finished then s.turn.None? && phase == Finished
    else if s.turn.value > 1 then false
    else match phase
      case FirstCommitment => s.turn.value == 0
      case FirstRevealSeed => s.turn.value == 0
      case SecondCommitment => s.turn.value == 1
      case SecondRevealPosition => s.positions[s.turn.value] == 0 && s.positions[1 - s.turn.value] != 0
      case _ => true
  }

  /** The player to move, if it is anyone's turn. */
  function WhoseTurn(participants: nat, s: BoardState): Option<Player>
    requires participants == 1 || participants == 2
    requires IsValid(participants, s)
  {
    if participants == 1 then None else MoverOf(s)
  }

  function MoverOf(s: BoardState): Option<Player>
    requires IsValidForTwo(s)
  {
    if s.turn.None? then None else Some(s.turn.value)
  }

  /** In a valid state of a two-player channel nobody is to move exactly when there is a winner. */
  lemma NoTurnIffWinner(s: BoardState)
    requires IsValidForTwo(s)
    ensures MoverOf(s).None? <==> s.winner.Some?
    ensures MoverOf(s).None? <==> GetPhase(s) == Finished
  {
  }

  function Shots(known: seq<Known>): nat {
    if known == [] then 0 else Shots(known[..|known| - 1]) + |Occupied(known[|known| - 1].guessed)|
  }

  /** A revealed position as the turn count sees it: narrowed to int. */
  predicate CountsAsRevealed(p: Word) {
    p % 0x1_0000_0000 != 0
  }

  function Revealed(positions: seq<Word>): nat {
    if positions == [] then 0
    else Revealed(positions[..|positions| - 1]) + (if CountsAsRevealed(positions[|positions| - 1]) then 1 else 0)
  }

  function TurnCount(s: BoardState): int
    requires GetPhase(s) != InvalidPhase
  {
    match GetPhase(s)
    case FirstCommitment => 1
    case SecondCommitment => 2
    case FirstRevealSeed => 3
    case Shoot => 4 + 2 * Shots(s.knownShips)
    case Answering => 4 + 2 * Shots(s.knownShips) - 1
    case _ => 4 + 2 * Shots(s.knownShips) - (if s.currentShot.Some? then 1 else 0) + Revealed(s.positions)
  }

  // ---- The moves ----

  predicate CheckHashValue(actual: string, expected: string) {
    |expected| == NUM_BYTES && actual == expected
  }

  function ApplyPositionCommitment(mv: Move, s: BoardState): Option<BoardState>
    requires mv.PositionCommitment?
  {
    var hash := mv.positionHash.GetOr("");
    if |hash| != NUM_BYTES then None
    else match GetPhase(s)
      case FirstCommitment =>
        if |mv.seedHash.GetOr("")| != NUM_BYTES || mv.seed.Some? then None
        else Some(s.(turn := Some(1), positionHashes := s.positionHashes + [hash],
                     seedHash0 := Some(mv.seedHash.GetOr(""))))
      case SecondCommitment =>
        if mv.seedHash.Some? || |mv.seed.GetOr("")| > NUM_BYTES then None
        else Some(s.(turn := Some(0), positionHashes := s.positionHashes + [hash],
                     seed1 := Some(mv.seed.GetOr(""))))
      case _ => None
  }

  function ApplySeedReveal(env: Crypto, mv: Move, s: BoardState): Option<BoardState>
    requires mv.SeedReveal?
  {
    var seed := mv.revealedSeed.GetOr("");
    if GetPhase(s) != FirstRevealSeed || |seed| > NUM_BYTES then None
    else if !CheckHashValue(env.sha(seed), s.seedHash0.GetOr("")) then None
    else
      var bit := env.coin(env.sha(seed + s.seed1.GetOr("")));
      Some(s.(turn := Some(if bit then 1 else 0), seedHash0 := None, seed1 := None,
              knownShips := s.knownShips + [Known(0, 0), Known(0, 0)]))
  }

  /** A state to which its next player can apply a move. */
  predicate CanMove(s: BoardState) {
    IsValidForTwo(s) && s.turn.Some?
  }

  function ApplyShot(mv: Move, s: BoardState): Option<BoardState>
    requires mv.Shot? && CanMove(s)
  {
    if GetPhase(s) != Shoot || mv.location.None? || !Target(mv.location.value).IsOnBoard() then None
    else
      var target := Target(mv.location.value);
      var other := Opponent(s.turn.value);
      var known := s.knownShips[other];
      if target in Occupied(known.guessed) then None
      else Some(s.(turn := Some(other), currentShot := Some(target.GetIndex()),
                   knownShips := s.knownShips[other := known.(guessed := WithCell(known.guessed, target))]))
  }

  function ApplyReply(mv: Move, s: BoardState): Option<BoardState>
    requires mv.Answer? && CanMove(s)
  {
    if GetPhase(s) != Answering || mv.reply.None? || !Target(s.currentShot.value).IsOnBoard() then None
    else
      var target := Target(s.currentShot.value);
      var turn := s.turn.value;
      var known := s.knownShips[turn];
      match mv.reply.value
      case Hit =>
        if target in Occupied(known.hits) then None
        else Some(s.(currentShot := None, turn := Some(Opponent(turn)),
                     knownShips := s.knownShips[turn := known.(hits := WithCell(known.hits, target))]))
      case Miss => Some(s.(currentShot := None))
      case Invalid => None
  }

  /** The hits recorded for a player are the ship cells among the cells guessed. */
  predicate AnswersMatch(position: Word, known: Known) {
    Occupied(known.hits) == Occupied(position) * Occupied(known.guessed)
  }

  function Record(s: BoardState, position: Word): BoardState
    requires CanMove(s) && GetPhase(s) in {Shoot, Answering, SecondRevealPosition}
  {
    var positions := if |s.positions| == 0 then [0, 0] else s.positions;
    s.(positions := positions[s.turn.value := position],
       positionHashes := s.positionHashes[s.turn.value := ""])
  }

  function Cleared(hashes: seq<string>): seq<string> {
    seq(|hashes|, i => "")
  }

  function Finish(s: BoardState, winner: Player): BoardState {
    s.(winner := Some(winner), turn := None, positionHashes := Cleared(s.positionHashes))
  }

  /** The winner, if the player to move reveals this committed position now. */
  ghost function Judge(s: BoardState, position: Word): Option<Player>
    requires CanMove(s) && GetPhase(s) in {Shoot, Answering, SecondRevealPosition}
  {
    var turn, other := s.turn.value, Opponent(s.turn.value);
    if !LegalPlacement(Occupied(position)) || !AnswersMatch(position, s.knownShips[turn]) then Some(other)
    else if GetPhase(s) == SecondRevealPosition then Some(turn)
    else if |Occupied(s.knownShips[other].hits)| >= TOTAL_SHIP_CELLS then Some(turn)
    else None
  }

  ghost function ApplyPositionReveal(env: Crypto, mv: Move, s: BoardState): Option<BoardState>
    requires mv.PositionReveal? && CanMove(s)
  {
    if GetPhase(s) !in {Shoot, Answering, SecondRevealPosition} then None
    else if mv.position.None? || |mv.salt.GetOr("")| > NUM_BYTES then None
    else
      var turn, position := s.turn.value, mv.position.value;
      var known := s.knownShips[turn];
      if !CheckHashValue(env.sha(BlobOf(position, 8) + mv.salt.GetOr("")), s.positionHashes[turn]) then None
      else if LegalPlacement(Occupied(position)) && !(Occupied(known.hits) <= Occupied(known.guessed)) then None
      else
        var r := Record(s, position);
        match Judge(s, position)
        case Some(winner) => Some(Finish(r, winner))
        case None => Some(r.(turn := Some(Opponent(turn))))
  }

  /** The state after a move by the player whose turn it is, if the move is valid. */
  ghost function ApplyMove(env: Crypto, s: BoardState, mv: Move): Option<BoardState>
    requires CanMove(s)
  {
    match mv
    case PositionCommitment(_, _, _) => ApplyPositionCommitment(mv, s)
    case SeedReveal(_) => ApplySeedReveal(env, mv, s)
    case Shot(_) => ApplyShot(mv, s)
    case Answer(_) => ApplyReply(mv, s)
    case PositionReveal(_, _) => ApplyPositionReveal(env, mv, s)
    case NotSet => None
  }
}
