# Game channels, Battleships, block sync and token ledgers of libxayagame

This Dafny project models the parts of libxayagame that decide who is right: how a game
channel's state is proved by a chain of signed states, how the Battleships board judges its
players, how disputes are settled on the chain and answered by the channel daemon, how a game
follows the blockchain through reorganisations, and how two small games (mover and the
non-fungible asset ledger) keep their books. Code that changes state in place is modelled by
classes and methods with loops, each proved equal to a function on values or to the property it
is for; the whole-run theorems are lemmas about those functions.

| files | part of the system |
|---|---|
| `Wrappers`, `Counting`, `Bits` | optional values, finite sums and cardinalities, 64-bit words as integers |
| `Coord`, `Fleet`, `Grid`, `Placement` | board cells, ships, bit boards, and the geometric check of a placement |
| `Board`, `BoardMoves`, `BoardRuns`, `BoardHistory`, `ShipsChannel` | the Battleships state machine, whole games, what the moves of a game say, and the automatic player |
| `Channels`, `Signatures`, `StateProofs` | channels with abstract board rules, signatures, and state proofs |
| `RollingState`, `ChannelManager` | the channel daemon's knowledge and its reactions |
| `ChannelGame`, `PendingChannels` | on-chain channel data, disputes, resolutions, pending proofs |
| `ShipsLedger`, `LedgerEffects`, `LedgerRuns`, `LedgerBooks`, `ShipsLogic` | the on-chain game of Battleships: what each move does, and all blocks |
| `LedgerHistory` | what a channel keeps from height to height, and what a daemon may believe of it |
| `ShipsRules`, `ShipsDaemon`, `DaemonRuns` | Battleships as board rules of a channel, its daemon, and whole lives of that daemon |
| `BlockTree`, `GameStorage`, `Game`, `PendingMoves` | block sync with undo data, batched transactions, pending moves |
| `Mover` | a game with undo data |
| `Tokens`, `TokenEffects`, `TokenProofs`, `TokenLedger` | the asset ledger: what each operation does, its pending overlay, conservation |

## What is assumed of the environment

- Hashing, signature recovery, wallets, the daemon's RPC answers, the mempool, transaction ids,
  random values and the order in which a query lists rows are parameters. A successful wallet
  signature recovers to the signing address (`HonestWallet`); nothing else about them is assumed
  except where a lemma names it.
- Board rules are abstract in state proofs, the daemon and the ledger. `Context.Lawful` asks only that
  state equality is a congruence and that turns belong to participants; it does not ask that the
  result of a move parses, or that it has a higher turn count. `GoodRules` adds that a two-player
  state has a winner exactly when nobody is on turn. `ShipsRules` shows that Battleships, with the
  parser that accepts every valid state, meets both.
- Where the source CHECKs something that can fail, the methods report it, and their contracts say
  exactly when. `DaemonRuns` shows that it does not happen to a player of Battleships over the whole
  life of a daemon in one reinitialisation of a channel, apart from the broadcasts that are named
  there. It relies on this: nobody but the daemon's wallet signs for the player (incoming proofs
  carry the player's signature only on states that the daemon signed), the wallet can sign for the
  player, and what the chain tells is true, which `LedgerHistories.LedgerIsTruthful` shows of the
  ledger. Nothing is assumed about the opponent. That the secret is kept is proved, as it is set and
  the seed drawn.
- Transaction ids of channel creations are fresh (for `LedgerHistories`: never used before), the
  mempool lists a transaction once, and notifications about blocks are truthful; blocks come at
  consecutive heights.
- Each public call of the daemon is one atomic step, as its mutex makes it.

## Where the code does something else than one may expect

- `BoardRuns.ResultValidity`: a move keeps a state valid if and only if the fields of the phase it
  enters are not filled wrongly already. In games that is always so, but a proof may start from
  any valid state. Verifying a proof therefore fails a CHECK exactly if, after legal moves, it
  comes to an accepted move whose result does not parse (`StateProofs.VerifyStateProof`,
  `ShipsRules.StepAbortsIff`); `ShipsRules.BadProofFailsCheck` is such a proof for every two-player
  channel. The ledger's theorems hold for every run; a block in which that CHECK fails is one at
  which the source aborts instead (`LedgerRuns.BlockFailsCheck`).
- The winner is an unsigned number, and IsValid does not bound it. A resolution with a finished
  state that names another winner than 0 or 1 fails a CHECK (`ShipsRules.ForeignWinnerFailsCheck`),
  and so does a daemon that learns of such a state and looks for the loser
  (`ShipsDaemon.ReactionFailsIff`, `ShipsDaemon.ForeignWinnerOffChainFails`). No game reaches one.
- `ShipsChannels.SeedOverwritten`: the daemon keeps one seed and draws it anew with every first
  commitment, also for another reinitialisation of the channel. If the chain then returns to the
  first one, the seed committed to there is lost: the automatic reveal is rejected and the CHECK on
  automatic moves fails (`ShipsDaemon.ReopeningFails`), which is the only way in which it can fail
  with the player's own position commitment (`ShipsDaemon.DaemonStuckIff`).
- `BoardRuns.StepTurnCount`: the turn count narrows positions to 32 bits and misses a reveal whose
  low half is zero, such as that of the empty position (`BoardRuns.EmptyRevealGoesUncounted`).
  `Placement.LegalPositionHasLowHalf` shows that no legal position is missed.
- `LedgerRuns.EarlyDisputesExpireAtOnce`: the expiry threshold is an unguarded 32-bit
  subtraction, so below height 10 every dispute expires in its own block. From height 10 on it is
  exactly ten blocks (`LedgerRuns.ExpiresExactlyThen`).
- `ChannelManagers.ChannelManager.ProcessOffChain`: an off-chain message can run into failing
  CHECKs, also when an automatic move becomes due for a channel that is no longer on the chain;
  `ShipsDaemon.OpeningOffChainFails` is such a message.
- `Games.Game.ReinitialiseState`: an exception thrown while the batch size changes is not caught. The
  methods report it as `ok == false` and say exactly when; what is stored is right even then.
- `Mover.UndoExactlyIf`: undoing a block restores the state if and only if no player who existed
  before gave two different orders in it; `Mover.TwoOrdersAreNotUndone` is a block that fails.

## Model

| member | source | states |
|---|---|---|
| Coords.IndexIsOnBoard | ships/coord.cpp:31-60 | a cell number of any sign denotes a cell of the board exactly if it lies in 0..63, despite C++ division truncating towards zero |
| Coords.IndexRoundTrip | ships/coord.cpp:31-60 | index and row/column conversion are inverse on the board |
| Grids.SameCells | ships/grid.hpp:30-100 | a 64-bit board is determined by the cells it marks |
| Grids.WithCell | ships/grid.cpp:100-106 | setting a cell marks that cell and no other, within 64 bits |
| Grids.AndNotCells | ships/board.cpp:560-600 | a & ~b marks the cells of a that b does not |
| Grids.LowHalf | ships/board.cpp:314-325 | the low 32 bits of a board are nonzero exactly if rows 0 to 3 hold a marked cell |
| Grids.BlobRoundTrip | ships/grid.cpp:123-137 | decoding the little-endian bytes of a number gives the number back |
| Grids.BlobInjective | ships/grid.cpp:123-137 | different boards have different blobs, so a committed hash is about one board |
| Grids.TextRoundTrip | ships/grid.cpp:38-92 | a printed board is readable text that denotes that board and no other |
| Grids.Grid.Set | ships/grid.cpp:100-106 | marks one more cell in place |
| Grids.Grid.CountOnes | ships/grid.cpp:108-121 | the shifting loop returns the number of marked cells |
| Grids.Grid.Blob | ships/grid.cpp:123-137 | writes the eight little-endian bytes of the board |
| Grids.Grid.FromString | ships/grid.cpp:52-92 | accepts exactly the texts with one mark per cell, blanks aside, and reads the board they denote |
| Grids.AnswersMeaning | ships/grid.cpp:149-157 | the answers check passes exactly if the hits are the targeted ship cells |
| Fleets.LegalPlacementCount | ships/grid.cpp:139-147 | every legal placement covers exactly 18 cells |
| Fleets.LegalPlacementReachesTop | ships/grid.cpp:226-297 | every legal placement has a cell in rows 0 to 3, because the grown ships do not fit below |
| Fleets.LegalFleetSize | ships/grid.cpp:139-147 | a legal placement has seven ships, six of them shorter than four cells |
| Fleets.ExampleIsLegal | ships/grid.cpp:226-297 | a concrete fleet that is a legal placement |
| Placement.CheckShip | ships/grid.cpp:185-224 | the walk succeeds exactly if nothing else is next to the ship (also diagonally), and measures the ship |
| Placement.VerifyPositionOfShips | ships/grid.cpp:226-297 | accepts exactly the boards whose cells partition into four, two and one straight ships of two, three and four cells that do not touch |
| Placement.CheckCounts | ships/grid.cpp:267-297 | the final loop accepts exactly the right number of each ship type |
| Placement.RunCells | ships/grid.cpp:185-224 | a run covers the cells up to its length and stops at an unset cell |
| Placement.WalksPartition | ships/grid.cpp:226-297 | if all walks succeed, the walked ships partition the board and keep apart |
| Placement.PartitionUnique | ships/grid.cpp:226-297 | a board has at most one partition into separate ships, the one that the scan walks |
| Placement.ScanIsPlacement | ships/grid.cpp:226-297 | the scan's verdict is the geometric definition, in both directions |
| Placement.LegalPositionHasLowHalf | ships/board.cpp:314-325 | the narrowing to 32 bits never loses a legal position |
| Board.TargetOnBoard | ships/board.cpp:435-464 | a 32-bit shot location, converted to int, hits the board exactly if it is below 64 |
| Board.NoTurnIffWinner | ships/board.cpp:45-109 | in a valid two-player state nobody is on turn exactly if there is a winner |
| BoardMoves.ComputeTurnCount | ships/board.cpp:273-330 | the loops over known ships and positions compute the turn count, which is 0 with a single participant |
| BoardMoves.ApplyPositionCommitment | ships/board.cpp:332-387 | in-place commitment of a position: accepted exactly as specified, with exactly that new state |
| BoardMoves.ApplySeedReveal | ships/board.cpp:389-432 | in-place seed reveal, the random starting player included |
| BoardMoves.ApplyShot | ships/board.cpp:434-473 | in-place shot: only at cells not guessed before, marked as guessed at once |
| BoardMoves.ApplyReply | ships/board.cpp:475-536 | in-place answer: only a hit is recorded, and the turn stays or passes |
| BoardMoves.CheckReveal | ships/board.cpp:575-660 | the checks of a revealed position decide the winner as specified, for records without stray hits |
| BoardMoves.ApplyPositionReveal | ships/board.cpp:538-668 | in-place reveal with all its checks |
| BoardMoves.ApplyMoveProto | ships/board.cpp:670-710 | dispatch on the kind of move: accepted exactly if the specification accepts, with its result |
| BoardRuns.InitialInv | ships/board.cpp:718-726 | the initial state satisfies the invariant of games |
| BoardRuns.StepInv | ships/board.cpp:332-710 | every accepted move keeps the invariant: valid state, hits within guessed, pending shot guessed and not yet hit |
| BoardRuns.ResultValidity | ships/board.cpp:45-109 | from any valid state, an accepted move leads to a valid state if and only if the fields of the phase it enters fit |
| BoardRuns.ValidStateWithInvalidSuccessor | ships/board.cpp:45-109 | a concrete valid state whose legal successor is invalid |
| BoardRuns.StepTurnCount | ships/board.cpp:273-330 | a move raises the turn count by one, except a reveal with a zero low half, which keeps it |
| BoardRuns.ValidMoveRises | ships/board.cpp:273-330 | between any two valid states, also outside of games, exactly when a move raises the turn count |
| BoardRuns.EmptyRevealGoesUncounted | ships/board.cpp:314-325 | a concrete accepted reveal, of the empty position, that the turn count misses |
| BoardRuns.UncountedEndsGame | ships/board.cpp:538-668 | such a reveal is an illegal placement and makes the opponent win |
| BoardRuns.TurnCountBound | ships/board.cpp:273-330 | turn counts of games lie in 1..262 |
| BoardRuns.RunInv | ships/board.cpp:332-726 | the invariant holds at every state of every game |
| BoardRuns.RunTurnCount | ships/board.cpp:273-330 | the turn count numbers the states of a game; only its last move can go uncounted |
| BoardRuns.RunLengthBound | ships/board.cpp:273-330 | no game has more than 262 moves |
| BoardRuns.HonestStep | ships/board.cpp:434-668 | one move keeps an honest player's record truthful, and makes them lose only fairly |
| BoardRuns.HonestLosesOnlyFairly | ships/board.cpp:538-668 | over every game, a player with a legal position who answers truthfully loses only if the opponent reveals a legal, truthfully answered position first, or they reveal first with fewer than 18 hits |
| BoardRuns.FairStep | ships/board.cpp:434-668 | one move keeps what a patient honest player can count on in each single state: a truthful record, no own reveal that leaves the game open, a loss only with every own ship cell hit |
| BoardRuns.PatientLosesOnlyWhenSunk | ships/channel.cpp:163-199 | a player who also reveals first only after 18 hits loses only with every own ship cell hit |
| BoardHistories.ValidStates | ships/board.cpp:45-109 | a state is valid exactly if it has a winner and nobody is on turn, or a player is on turn in a phase of the game that is theirs |
| BoardHistories.AcceptedCommitments | ships/board.cpp:332-387 | in a game, exactly which commitments are accepted, and that they are what is stored |
| BoardHistories.AcceptedSeeds | ships/board.cpp:389-432 | in a game, exactly which seed is accepted, and that both seeds together toss the coin |
| BoardHistories.AcceptedShots | ships/board.cpp:434-473 | exactly which shots are accepted; the opponent's cell is noted and the opponent is on turn |
| BoardHistories.AcceptedAnswers | ships/board.cpp:475-536 | in a game, exactly which answers are accepted; a hit is noted |
| BoardHistories.TurnAfterAnswer | ships/board.cpp:504-529 | from any valid state, a hit passes the turn back to the shooter and a miss leaves it with the player who answers |
| BoardHistories.AcceptedReveals | ships/board.cpp:538-668 | in a game, a position can be revealed exactly if it is the committed one, also instead of an answer |
| BoardHistories.RecordIsHistory | ships/board.cpp:434-536 | at every point of every game, the cells noted as shot at and as hit are those of the shots and the answers made so far |
| BoardHistories.ShooterGoesOnAfterHit | ships/board.cpp:434-536 | in every game, after a shot and its answer the shooter is on turn again exactly if the cell became a hit |
| BoardHistories.SeedsDecideWhoStarts | ships/board.cpp:332-432 | every game opens with two commitments and the seed, and the tossed coin decides who shoots first |
| BoardHistories.RevealedIsCommitted | ships/board.cpp:538-574 | whoever reveals a position in a game reveals the one that the player's first move committed to |
| BoardHistories.VerdictOfReveal | ships/board.cpp:575-660 | the verdict of a reveal in terms of the moves of the game: who cheated, who revealed first, and whether 18 cells were hit |
| ShipsChannels.DaemonLosesOnlyWhenSunk | ships/channel.cpp:35-205 | in every game in which a player only shoots and the daemon does the rest from a position that SetPosition accepted, the player loses only with every ship cell hit |
| ShipsChannels.ShipsChannel.SetPosition | ships/channel.cpp:35-54 | stores exactly legal positions, and a stored one counts as set |
| ShipsChannels.ShipsChannel.InternalAutoMove | ships/channel.cpp:112-205 | the automatic move in each phase, and the only change to the secret |
| ShipsChannels.AutoMoveHonest | ships/channel.cpp:163-199 | automatic moves answer truthfully, answer before revealing, and reveal first only to win |
| ShipsChannels.OnTurnMayAsk | ships/channel.cpp:112-205 | in a state of a game with the player on turn, the CHECKs of the automatic move hold, on a position that is set and a target on the board; without a position nothing is due |
| ShipsChannels.AutoMoveUnlessAwaited | ships/channel.cpp:112-205 | in a game, an automatic move is found exactly unless a position has to be set or a shot to be chosen; fresh seeds are the drawn ones |
| ShipsChannels.AutoMoveAccepted | ships/channel.cpp:112-205 | in a state of a game with the player's own commitments, the board accepts the automatic move |
| ShipsChannels.AutoMoveAcceptedIff | ships/channel.cpp:112-205 | with only the position commitment being the player's own, it accepts it if and only if a seed to be revealed is still the one committed to |
| ShipsChannels.SeedOverwritten | ships/channel.cpp:124-161 | a concrete course of calls after which the seed to be revealed is another one: opening twice, for two reinitialisations |
| ShipsChannels.LoserCheckFails | ships/channel.cpp:256-303 | the CHECKs on the loser, an unsigned difference converted to int, fail exactly in finished states whose winner has no opponent in the channel |
| ShipsChannels.LoserDeclares | ships/channel.cpp:256-303 | in a state of a game, exactly the loser declares the loss, once |
| ShipsChannels.ShipsChannel.MaybeOnChainMove | ships/channel.cpp:256-303 | declares a lost game, fails a CHECK, or does nothing, and remembers the transaction it sent |
| ShipsChannels.AutoMoveCommits | ships/channel.cpp:112-205 | after an automatic move, the state's commitments are those of the secret that the daemon then has |
| ShipsChannels.AutoMoveNeverRejected | ships/channel.cpp:112-205 | at every point of every game in which the player keeps to the secret, automatic moves are accepted |
| Signatures.VerifyParticipantSignatures | gamechannel/signatures.cpp:39-62 | returns exactly the participants for whom some signature recovers to their address |
| Signatures.SignDataForParticipant | gamechannel/signatures.cpp:64-92 | appends a signature exactly if the wallet makes one |
| Signatures.OwnSignatureCounts | gamechannel/signatures.cpp:39-92 | an honest wallet's signature is recognised as that participant's |
| StateProofs.ExtraVerifyStateTransition | gamechannel/stateproof.cpp:25-72 | accepts exactly a legal move to an equivalent state, signed by the player on turn; the CHECK fails exactly if the board accepts the move and its result does not parse |
| StateProofs.VerifyStateTransition | gamechannel/stateproof.cpp:74-92 | the same for one transition from any state that parses |
| StateProofs.VerifyStateProof | gamechannel/stateproof.cpp:94-145 | accepts exactly the valid proofs, and the end state it returns is the unverified end state and parses; a CHECK fails exactly if a legal prefix leads to a move whose result does not parse |
| StateProofs.ValidDoesNotAbort | gamechannel/stateproof.cpp:94-145 | verifying a valid proof never fails the CHECK |
| StateProofs.AcceptedProofIsAgreed | gamechannel/stateproof.cpp:94-154 | an accepted end state follows from the reinitialisation by legal signed moves, or every participant signed a state from which it does |
| StateProofs.EveryMoveIsSigned | gamechannel/stateproof.cpp:25-92 | every move in an accepted proof is allowed, leads to an encoding of its result, and is signed by the player on turn for this channel and reinitialisation |
| StateProofs.EveryoneSignedOne | gamechannel/stateproof.cpp:94-145 | an accepted proof that does not start with the reinitialisation carries a signature of every participant |
| StateProofs.StepAlike | gamechannel/stateproof.cpp:25-72 | steps do not depend on how the state they start from is encoded |
| StateProofs.FindStart | gamechannel/stateproof.cpp:196-232 | the backward search finds the latest start whose states carry all signatures, or the beginning |
| StateProofs.ExtendStateProof | gamechannel/stateproof.cpp:156-234 | succeeds exactly if the board accepts the move and the wallet signs, with the minimal suffix of the full chain |
| StateProofs.MinimalStartIs | gamechannel/stateproof.cpp:196-232 | there is exactly one minimal start of a chain |
| StateProofs.ExtendedPath | gamechannel/stateproof.cpp:156-234 | signing one's move onto a legal chain keeps it legal |
| StateProofs.ExtendedProofIsValid | gamechannel/stateproof.cpp:156-234 | if the move's result parses, the extended proof of a valid proof is valid for the same reinitialisation and ends in that result |
| StateProofs.ExtendedIsShortest | gamechannel/stateproof.cpp:196-232 | no later state of an extended proof could start one with all signatures |
| StateProofs.ExtendedProofIsVersioned | gamechannel/stateproof.cpp:156-234 | extension stays within the protocol version |
| RollingStates.RollingState.UpdateOnChain | gamechannel/rollingstate.cpp:72-145 | merges on-chain data as specified; the flag tells exactly whether the current reinitialisation or its state changed |
| RollingStates.RollingState.UpdateWithMove | gamechannel/rollingstate.cpp:147-218 | takes over exactly valid, fresher proofs for known reinitialisations; the flag tells whether the view changed, and a CHECK fails exactly on a proof that aborts |
| RollingStates.CountsNeverFall | gamechannel/rollingstate.cpp:72-218 | no update lowers the on-chain or the latest turn count of a known reinitialisation |
| RollingStates.HistorySound | gamechannel/rollingstate.cpp:72-218 | after every history, each stored proof verifies, its end state is the stored state, and the on-chain count is no larger |
| RollingStates.EntryStep | gamechannel/rollingstate.cpp:72-218 | how one update acts on one entry, and that it leaves the others alone |
| RollingStates.LatestIsMaximum | gamechannel/rollingstate.cpp:72-218 | the kept state has the largest turn count of all proofs that arrived for the reinitialisation, in whatever order, and is one of them |
| RollingStates.OnChainTurnIsMaximum | gamechannel/rollingstate.cpp:72-145 | over every history, the count known to be on the chain is the largest that a block has shown |
| RollingStates.CurrentIsLastShown | gamechannel/rollingstate.cpp:72-145 | over every history, the current reinitialisation is the one that the last block has shown |
| RollingStates.ForeignIsIgnored | gamechannel/rollingstate.cpp:147-200 | data with parts that the protocol version does not have is not believed |
| ChannelManagers.ExtensionIsFresher | gamechannel/channelmanager.cpp:309-328 | the extended proof of a stored entry verifies and is fresher, if this move's result parses and has a higher turn count |
| ChannelManagers.OnlyFresherIsTaken | gamechannel/channelmanager.cpp:309-328 | a proof whose end state does not parse or is not fresher changes nothing, so that the CHECK fails |
| ChannelManagers.MovedIs | gamechannel/channelmanager.cpp:309-328 | a move that can be made leads to its result for the current reinitialisation, keeps the stored data sound, and changes the view |
| ChannelManagers.ChannelManager.ApplyLocalMove | gamechannel/channelmanager.cpp:309-328 | moves exactly if the channel exists and the move can be made, signed and taken over; refuses exactly what cannot be made or signed; fails a CHECK otherwise |
| ChannelManagers.AutoRunIsPath | gamechannel/channelmanager.cpp:118-155 | the specified run is a path of automatic moves, ending where none is due, or at a due one that cannot be made |
| ChannelManagers.AutoRunKeeps | gamechannel/channelmanager.cpp:118-155 | the run keeps the stored data sound and the metadata, and raises the turn count with each move |
| ChannelManagers.ChannelManager.ProcessAutoMoves | gamechannel/channelmanager.cpp:118-155 | the loop makes exactly the moves of that run, terminates, and fails its CHECK exactly if the run gets stuck |
| ChannelManagers.ChannelManager.TryResolveDispute | gamechannel/channelmanager.cpp:63-116 | sends a resolution exactly if a dispute against us can be resolved and none is pending |
| ChannelManagers.ChannelManager.SendUpdates | gamechannel/channelmanager.cpp:163-175 | sends exactly the announced state, the resolution of a dispute that can be answered, and the game's own move, and fails exactly if the game's reaction fails a CHECK |
| ChannelManagers.ChannelManager.ProcessStateUpdate | gamechannel/channelmanager.cpp:157-176 | makes the due automatic moves and then sends exactly these messages; fails exactly if the moves get stuck or the game's reaction to the state they lead to fails a CHECK |
| ChannelManagers.ChannelManager.ProcessOffChain | gamechannel/channelmanager.cpp:178-194 | merges another player's state and reacts; fails exactly on a proof that aborts, or if automatic moves get stuck (always where one is due and the channel is not on the chain), or if the game's reaction on the chain fails; otherwise disputes stay answered |
| ChannelManagers.ChannelManager.ProcessOnChainNonExistant | gamechannel/channelmanager.cpp:196-220 | the channel is gone, and nothing is left to answer |
| ChannelManagers.ChannelManager.UpdateDispute | gamechannel/channelmanager.cpp:269-299 | follows the dispute on the chain, and of an own resolution exactly a pending one stays noted |
| ChannelManagers.ChannelManager.RecordBlock | gamechannel/channelmanager.cpp:264-299 | what a block changes before the daemon reacts: the merged state and the dispute; of the noted transactions exactly the pending ones stay |
| ChannelManagers.ChannelManager.CanResolveExactlyIf | gamechannel/channelmanager.cpp:63-116 | the daemon resolves exactly if the dispute is against its player and the chain would take its proof |
| ChannelManagers.ChannelManager.ProcessOnChain | gamechannel/channelmanager.cpp:231-306 | merges the block's data, records the dispute and reacts, failing exactly if automatic moves get stuck or the game's reaction fails; otherwise an own resolution counts only while it is pending, and is sent again exactly if it is needed and not pending |
| ChannelManagers.ChannelManager.ProcessLocalMove | gamechannel/channelmanager.cpp:330-352 | a move that can be made and signed is made and announced, and then reacted to; fails exactly if its result is not taken over, automatic moves get stuck, or the game's reaction fails |
| ChannelManagers.ChannelManager.TriggerAutoMoves | gamechannel/channelmanager.cpp:354-378 | if an automatic move is due, makes all of them and reacts, failing exactly if they get stuck or the game's reaction fails; otherwise changes nothing; disputes stay answered |
| ChannelManagers.ChannelManager.PutStateOnChain | gamechannel/channelmanager.cpp:380-415 | sends the latest state exactly if it is fresher than the chain's |
| ChannelManagers.ChannelManager.FileDispute | gamechannel/channelmanager.cpp:417-445 | disputes the latest state exactly if no dispute is open or pending |
| ChannelGames.ReinitProofIsGood | gamechannel/database.cpp:42-47 | the trivial proof of a reinitialisation state is valid |
| ChannelGames.StoreLoad | gamechannel/database.cpp:57-115 | writing a channel back and reading it again keeps its latest state and everything else but a trivial proof's form |
| ChannelGames.ChannelData.FromRow | gamechannel/database.cpp:57-80 | a handle starts with the row's data |
| ChannelGames.ChannelData.Reinitialise | gamechannel/database.cpp:131-150 | new metadata and state with the trivial proof; the dispute height stays |
| ChannelGames.ChannelData.WriteBack | gamechannel/database.cpp:82-115 | the row is written exactly if something was changed |
| ChannelGames.ProcessDispute | gamechannel/channelgame.cpp:25-104 | accepts exactly the disputes of the specification; a rejected one changes nothing; a CHECK fails exactly on a proof that aborts |
| ChannelGames.ProcessResolution | gamechannel/channelgame.cpp:106-143 | accepts exactly fresher valid proofs; a rejected one changes nothing; a CHECK fails exactly on a proof that aborts |
| ChannelGames.DisputeProgress | gamechannel/channelgame.cpp:25-104 | an accepted dispute strictly raises 2 * turn count + disputed, keeps a valid proof, and disputes a state with a turn |
| ChannelGames.ResolutionProgress | gamechannel/channelgame.cpp:106-143 | an accepted resolution strictly raises the same rank and ends the dispute |
| ChannelGames.AnswerableDispute | gamechannel/channelgame.cpp:106-143 | a valid proof resolves exactly if it is fresher than the chain |
| PendingChannels.PendingMoves.AddPendingStateProof | gamechannel/channelgame.cpp:151-208 | one pending proof changes only its own channel's entry, as specified, or fails the CHECK exactly if it aborts |
| PendingChannels.BestIsFreshest | gamechannel/channelgame.cpp:151-208 | a proof is kept exactly if a valid fresher one was seen, and it is a freshest of all seen |
| PendingChannels.BestIsFirst | gamechannel/channelgame.cpp:150-200 | among equally fresh proofs the one seen first is kept |
| PendingChannels.KeptResolves | gamechannel/channelgame.cpp:106-208 | whatever is kept would be accepted as a resolution |
| ShipsRules.BoardIsLawful | gamechannel/protoboard.tpp:40-118 | Battleships, parsing every state that is valid for one or two participants, meets what state proofs rely on |
| ShipsRules.ShipsRulesAreGood | ships/board.cpp:45-109 | with that parser, Battleships meets what the ledger relies on |
| ShipsRules.StepAbortsIff | gamechannel/stateproof.cpp:47-50 | for Battleships, the CHECK that results parse fails exactly at an accepted move into a phase whose fields do not fit |
| ShipsRules.MoveRisesIff | ships/board.cpp:273-330 | exactly when a move leads to a state that parses and has a higher unsigned turn count, for all valid states |
| ShipsRules.GameMovesRise | ships/board.cpp:273-330 | in states of games every accepted move does, except an uncounted reveal |
| ShipsRules.WonGameIsCounted | ships/logic.cpp:462-524 | resolving a channel by the end of a game counts the win for the player who won on the board |
| ShipsRules.BadProofFailsCheck | gamechannel/stateproof.cpp:47-50 | a concrete filed proof that fails the CHECK in every two-player channel |
| ShipsRules.ForeignWinnerFailsCheck | ships/logic.cpp:508-524 | a concrete state, signed by both players, with which a resolution fails the CHECK on the winner |
| ShipsDaemon.ProofOfGame | gamechannel/stateproof.cpp:94-145 | a valid proof in which one player's signatures are genuine ends in a state of a game that keeps this player's commitments, whatever the opponent signed |
| ShipsDaemon.ExtensionStaysGenuine | gamechannel/stateproof.cpp:156-234 | signing a state of the game onto a proof keeps the player's signatures genuine |
| ShipsDaemon.ReactionFailsIff | ships/channel.cpp:256-303 | the daemon's reaction on the chain fails a CHECK exactly in finished two-player states that name a winner above 1 |
| ShipsDaemon.ReactionInGame | ships/channel.cpp:256-303 | in a state of a game it never fails, and sends exactly the player's own loss of this reinitialisation, unless that is pending |
| ShipsDaemon.DueMoveCanBePlayed | gamechannel/channelmanager.cpp:142-151 | in a state of a game with the player's own position commitment, a due automatic move is accepted, signed and fresher if and only if a seed that it reveals is the one committed to |
| ShipsDaemon.DueUnlessAwaited | gamechannel/channelmanager.cpp:118-155 | in a state of a game, a move is due exactly if the player is on turn and neither a position nor a shot is the player's to choose |
| ShipsDaemon.DaemonNeverStuck | gamechannel/channelmanager.cpp:118-155 | while the channel exists, no CHECK on automatic moves fails, those of the game's object included, for a Battleships player who keeps the secret, with or without a position; they lead to a state of the game |
| ShipsDaemon.DaemonStuckIff | gamechannel/channelmanager.cpp:118-176 | with only the position commitment being the player's own, a new state fails a CHECK if and only if a seed is to be revealed now and is not the one committed to |
| ShipsDaemon.ReopeningFails | gamechannel/channelmanager.cpp:142-151 | a first player who also opened another reinitialisation since fails that CHECK once the first opening is answered |
| ShipsDaemon.OnChainNeverFails | gamechannel/channelmanager.cpp:251-306 | no block with the channel's data makes that daemon fail a CHECK, so that it always answers disputes it can |
| ShipsDaemon.OffChainFailsOnlyByProof | gamechannel/channelmanager.cpp:178-194 | while the channel exists, a broadcast fails a CHECK exactly if its proof aborts |
| ShipsDaemon.LocalMovesNeverFail | gamechannel/channelmanager.cpp:330-352 | the player's own shots and reveals are made or refused without a failing CHECK |
| ShipsDaemon.OpeningOffChainFails | gamechannel/channelmanager.cpp:178-194 | a concrete broadcast that fails the CHECK of ApplyLocalMove because the channel is not on the chain |
| ShipsDaemon.ForeignWinnerOffChainFails | ships/channel.cpp:268-270 | a concrete broadcast, signed by both players, that verifies and makes no move due, and fails the CHECK on the loser |
| DaemonRuns.InvKnowsGame | gamechannel/stateproof.cpp:94-145 | if only the daemon signs for the player, what it knows is a state of the game that keeps the secret |
| DaemonRuns.PlayedKeeps | gamechannel/channelmanager.cpp:309-328 | a played move keeps the daemon's invariant with the secret as it is afterwards, also when the seed was just drawn |
| DaemonRuns.SettledIsRun | gamechannel/channelmanager.cpp:118-155 | following the secret and the signed states through the automatic moves gives the manager's own run |
| DaemonRuns.SettledKeeps | gamechannel/channelmanager.cpp:118-155 | all automatic moves together keep the invariant: every signed state is of the game, keeps the secret, and is no fresher than the latest one |
| DaemonRuns.CallKeeps | gamechannel/channelmanager.cpp:178-378 | every call (block, vanishing channel, broadcast, local move, placed position, trigger) keeps the invariant, and fails a CHECK exactly if it is a broadcast whose proof aborts or which makes a move due for a channel that is gone |
| DaemonRuns.Life | gamechannel/channelmanager.cpp:178-378 | over every sequence of calls the invariant holds, and a position that is set stays |
| DaemonRuns.LifeBegins | gamechannel/channelmanager.cpp:251-306 | the life of a new daemon can begin with the block in which the second player joined, after which it knows that first state |
| DaemonRuns.NoCallFails | gamechannel/channelmanager.cpp:178-378 | after any such sequence, the next call fails a CHECK exactly if it is such a broadcast |
| DaemonRuns.OnlyChoicesAreLeft | gamechannel/channelmanager.cpp:118-176 | after a call to which it reacts, the daemon has nothing left to do by itself: the opponent is on turn, or the player has to set a position or to choose a shot |
| DaemonRuns.LostOnlyWhenSunk | ships/channel.cpp:163-199 | whatever the opponent broadcasts, the daemon of a player who only shoots knows the game as lost only with every ship cell hit |
| DaemonRuns.DeclaresOnlyRealLosses | ships/channel.cpp:256-303 | at every time of its life, the daemon declares nothing on the chain but the player's own loss, and that of a player who only shoots only with every ship cell hit |
| ShipsLedger.NextBlock | ships/logic.cpp:645-699 | tables in order after one block are in order for the moves of the next |
| ShipsLedger.JoinInBlock | ships/logic.cpp:218-253 | joining keeps the tables in order, and the CHECK for a new reinitialisation id holds |
| ShipsLedger.DisputeResolutionInBlock | ships/logic.cpp:462-524 | disputes and resolutions that fail no CHECK keep the tables in order, including the immediate close on a winner; the stored state parses |
| ShipsLedger.ActionInBlock | ships/logic.cpp:645-695 | every move keeps the tables in order and creates at most the channel of its own id |
| ShipsLedger.ApplyMoves | ships/logic.cpp:645-695 | all moves of a block keep the tables in order |
| ShipsLedger.OnlyCreatedAppear | ships/logic.cpp:101-136 | channels appear only by creation moves, so fresh ids stay fresh within a block |
| LedgerEffects.CreateEffect | ships/logic.cpp:101-136 | a creation adds exactly one channel with the sender as its only player, waiting from this height on |
| LedgerEffects.JoinEffect | ships/logic.cpp:218-253 | exactly somebody else can join a waiting channel, as the second player and with a fresh board |
| LedgerEffects.AbortEffect | ships/logic.cpp:318-330 | exactly its creator can abort a waiting channel, which is then gone |
| LedgerEffects.DeclareLossEffect | ships/logic.cpp:354-427 | the sender of a declaration is the loser and the other player the winner; nobody else and no other reinitialisation |
| LedgerEffects.ResolutionEffect | ships/logic.cpp:462-524 | a good fresher proof replaces the state and ends disputes; if it shows winner w, participant w has won and the other one has lost, and a winner above 1 fails the CHECK |
| LedgerEffects.ResolutionIgnored | ships/logic.cpp:462-524 | any other resolution changes nothing, and fails a CHECK exactly if verifying it does |
| LedgerEffects.DisputeEffect | ships/logic.cpp:462-524 | exactly which disputes count, also of the very state on the chain, and that they are open from this block on |
| LedgerEffects.ForeignIsIgnored | gamechannel/channelgame.cpp:22-60 | proofs with parts that the protocol version does not have change nothing |
| LedgerEffects.MovesInOrder | ships/logic.cpp:645-695 | the moves of a block are processed from the first to the last |
| LedgerRuns.DisputedIsExpirable | ships/logic.cpp:527-564 | a disputed channel has two players, a parsable state and a player on turn: the expiry CHECKs hold |
| LedgerRuns.ExpiresExactlyThen | ships/logic.cpp:527-564 | from height 10 on, a dispute expires exactly ten blocks after its recorded height |
| LedgerRuns.EarlyDisputesExpireAtOnce | ships/logic.cpp:534 | below height 10 the 32-bit subtraction wraps and all disputes expire at once |
| LedgerRuns.ExpiryInBlock | ships/logic.cpp:527-564 | closing expired disputes in any listing order leaves only younger ones |
| LedgerRuns.TimesOutExactlyThen | ships/logic.cpp:613-641 | exactly the channels created twelve blocks ago and never joined time out: the CHECKs hold |
| LedgerRuns.TimeOutInBlock | ships/logic.cpp:613-641 | after the timeouts the tables are in order for the block's end |
| LedgerRuns.UpdateState | ships/logic.cpp:645-699 | every block keeps the tables in order: same ids and participant counts, parsable unfinished states, disputes and waiting channels young enough; so the CHECKs on the tables hold |
| LedgerRuns.UnresolvedDisputeCloses | ships/logic.cpp:527-564 | a dispute left open in its tenth block closes the channel against the player on turn |
| LedgerRuns.ChannelProgress | ships/logic.cpp:218-524 | a move leaves an open channel alone, lets the second player join, or strictly raises its rank |
| LedgerHistories.BlockDescends | ships/logic.cpp:645-699 | after a block, every channel known before is the same reinitialisation, was just joined, or is gone for good |
| LedgerHistories.RunDescends | ships/logic.cpp:645-699 | the same between any two heights of a run, if transaction ids are never used twice |
| LedgerHistories.ReinitsAgree | gamechannel/rollingstate.cpp:72-145 | at every height of a run, a channel's reinitialisation id stands for the same players and the same first state |
| LedgerHistories.LedgerIsTruthful | gamechannel/rollingstate.cpp:72-145 | at every height of a run, the ledger's data meets what a daemon that followed the ledger CHECKs of on-chain data, of waiting channels as well if the empty state parses |
| LedgerHistories.KnowledgeFromLedger | gamechannel/rollingstate.cpp:72-145 | what such a daemon knows of each reinitialisation stays what the ledger said, whatever other players send |
| LedgerRuns.Ledger | ships/logic.cpp:645-699 | over every run of blocks from the empty ledger the tables are in order at every height |
| LedgerBooks.StatsOfClosing | ships/logic.cpp:568-604 | closing counts one win and one loss, for these names only |
| LedgerBooks.ActionBalanced | ships/logic.cpp:101-524 | every move keeps the books balanced |
| LedgerBooks.BlockBalanced | ships/logic.cpp:645-699 | every block keeps the books balanced |
| LedgerBooks.LedgerBalanced | ships/logic.cpp:568-699 | over every run, total won = total lost = channels closed by loss, resolution or expiry, per name as well, and created = open + aborted + timed out + closed |
| ShipsLogics.ShipsLogic.UpdateStats | ships/logic.cpp:568-604 | the three statements on the statistics table count one win and one loss |
| ShipsLogics.ShipsLogic.HandleCreateChannel | ships/logic.cpp:101-136 | inserts the rows of a new channel |
| ShipsLogics.ShipsLogic.HandleJoinChannel | ships/logic.cpp:218-253 | adds the second player and starts the board, or changes nothing |
| ShipsLogics.ShipsLogic.HandleAbortChannel | ships/logic.cpp:318-330 | deletes a waiting channel of the sender, or changes nothing |
| ShipsLogics.ShipsLogic.HandleDeclareLoss | ships/logic.cpp:354-427 | closes the channel against the sender exactly if the sender plays in it and names its reinitialisation; the CHECKs hold |
| ShipsLogics.ShipsLogic.HandleDisputeResolution | ships/logic.cpp:462-524 | files the proof through a handle and closes the channel if it shows a winner; a CHECK fails exactly if the proof aborts or names a winner above 1 |
| ShipsLogics.ShipsLogic.ProcessExpiredDisputes | ships/logic.cpp:527-564 | the loop over the query closes all listed channels as specified |
| ShipsLogics.ShipsLogic.TimeOutChannels | ships/logic.cpp:613-641 | the loop over the query deletes all listed channels |
| ShipsLogics.ShipsLogic.UpdateState | ships/logic.cpp:645-699 | the whole block in place equals the specification and leaves the tables in order; it fails exactly if some move of it fails a CHECK |
| BlockTrees.World.UndoReachesAncestor | xayagame/game.cpp:114-169 | undoing any number of blocks gives the folded state of the older block |
| BlockTrees.World.CoversFrame | xayagame/game.cpp:114-169 | releasing one block's undo data leaves that of its ancestors complete |
| BlockTrees.World.ChildOnTree | xayagame/game.cpp:70-112 | an attached child of a block on the tree is on the tree and never the genesis block |
| GameStorage.Storage.SetCurrentGameStateWithHeight | xayagame/heightcache.cpp:21-31 | stores state and hash and caches the height |
| GameStorage.Storage.GetCurrentBlockHashWithHeight | xayagame/heightcache.cpp:33-56 | returns the current block with its true height, cached or asked for |
| GameStorage.Storage.Clear | xayagame/heightcache.hpp:112-117 | removes everything and the cached height |
| GameStorage.Storage.RollbackTransaction | xayagame/heightcache.hpp:174-182 | returns to the committed data and forgets the cached height |
| GameStorage.TransactionManager.Flush | xayagame/transactionmanager.cpp:25-49 | commits the batch, or leaves it to be rolled back |
| GameStorage.TransactionManager.SetBatchSize | xayagame/transactionmanager.cpp:58-75 | a smaller batch size commits what is batched |
| GameStorage.TransactionManager.CommitTransaction | xayagame/transactionmanager.cpp:95-111 | batches the transaction, or commits the full batch |
| GameStorage.TransactionManager.RollbackTransaction | xayagame/transactionmanager.cpp:113-128 | rolls back the transaction and the whole batch |
| GameStorage.TransactionManager.TryAbortTransaction | xayagame/transactionmanager.cpp:130-144 | afterwards nothing is open, and only committed data is left |
| Games.Game.UpdateStateForAttach | xayagame/game.cpp:70-112 | stores the folded state of the attached block, refuses other blocks, or returns to the last committed data |
| Games.Game.UpdateStateForDetach | xayagame/game.cpp:114-169 | restores the folded state of the parent; only for the genesis block is undo data missing, and then all is cleared |
| Games.Game.GenesisHasNoUndo | xayagame/game.cpp:130-141 | undo data for the current block is missing exactly at the genesis block |
| Games.Game.DetachIsRight | xayagame/game.cpp:114-169 | backwards processing with the stored undo data gives the parent's folded state |
| Games.Game.SyncFromCurrentState | xayagame/game.cpp:832-866 | up to date exactly if the daemon's best block is the current one, catching up otherwise; an exception escapes exactly if the commit of a batch of at least the new size fails |
| Games.Game.StoreInitialState | xayagame/game.cpp:936-948 | retries until the initial state is stored |
| Games.Game.ReinitialiseState | xayagame/game.cpp:868-957 | goes on from what is stored, waits for the genesis block, or starts over; never ends unknown or out of sync, unless exactly that exception escapes |
| Games.Game.FinishingCatchUpCanFail | xayagame/game.cpp:832-866 | a concrete attach message, the last one while catching up with a batch that is not full, at which the exception can escape |
| Games.Game.BlockAttach | xayagame/game.cpp:171-275 | after any attach message with any request token, missed messages and failures, all that is stored is the fold of its chain; while up-to-date a block that nobody asked for, and while catching up one with our token, is applied if it fits, and reaching the target ends the catching up; any other token changes nothing; exactly when an exception escapes |
| Games.Game.BlockDetach | xayagame/game.cpp:277-371 | the same for detach messages, which lead back to the parent; detaching the genesis block starts over |
| Games.FollowChain | xayagame/game.cpp:171-371 | over every sequence of attached and detached blocks without a token, an up-to-date game is at the block to which they lead |
| Games.CatchUp | xayagame/game.cpp:171-275 | over every sequence of attached blocks with our token up to the target, a game that catches up arrives there |
| PendingProcessors.PendingMoveProcessor.Reset | xayagame/pendingmoves.cpp:71-113 | the view becomes the fold over the mempool's known moves in its order |
| PendingProcessors.PendingMoveProcessor.ProcessAttachedBlock | xayagame/pendingmoves.cpp:135-159 | the queue stays a parent-linked chain of at most 100 blocks ending in the new one; the view is rebuilt |
| PendingProcessors.PendingMoveProcessor.ProcessDetachedBlock | xayagame/pendingmoves.cpp:161-197 | the block's moves become known again, and exactly what is known and still in the mempool is passed on; the queue loses its last block or is cleared |
| PendingProcessors.PendingMoveProcessor.ProcessMove | xayagame/pendingmoves.cpp:199-221 | a move first seen is added on top, a known one is ignored: each transaction is passed once |
| PendingProcessors.ResetCovers | xayagame/pendingmoves.cpp:91-113 | a reset passes exactly the known moves in the mempool, each once |
| PendingProcessors.InMempoolOrder | xayagame/pendingmoves.cpp:91-113 | and in the order of the mempool |
| PendingProcessors.AddAllKnows | xayagame/pendingmoves.cpp:161-180 | after a detached block exactly its moves and those known before are known, the latter unchanged |
| PendingProcessors.QueueHoldsNewest | xayagame/pendingmoves.cpp:135-159 | after n attached blocks of a chain the queue holds the last n of them, 100 at most |
| PendingProcessors.TokenViewAgrees | nonfungible/pending.cpp:146-159 | with the asset game's callbacks, if all moves are passed on one confirmed database, the view is that database after all moves passed |
| Mover.ParseMove | mover/moves.cpp:122-148 | a valid order has a direction and between 1 and 1000000 steps |
| Mover.ProcessForward | mover/logic.cpp:55-135 | the two loops give all players their last order and one step, with the specified undo data |
| Mover.ProcessBackwards | mover/logic.cpp:137-206 | the loop restores all players that are not new, and its CHECK holds |
| Mover.UndoExactlyIf | mover/logic.cpp:55-206 | undoing a block gives the state before it if and only if no existing player's old order was hidden by a different one |
| Mover.SingleOrdersReverse | mover/logic.cpp:55-206 | blocks with at most one valid move per name can be undone |
| Mover.ForwardTidy | mover/logic.cpp:100-127 | players keep a direction exactly while they have steps left, so the CHECK on steps holds |
| Mover.TwoOrdersAreNotUndone | mover/logic.cpp:55-206 | a concrete block that is not undone |
| Mover.StatesInOrder | mover/logic.cpp:55-135 | at every block the state is in order and coordinates stay within the number of blocks |
| Mover.WalkLeadsTo | mover/logic.cpp:55-135 | after an order of n steps and any further blocks without one, a player is as many fields from the start as there were blocks, n at most, in the direction of the order's letter |
| Mover.MoverIsLawful | mover/logic.cpp:55-206 | the game meets what block sync relies on: every block on the tree can be undone |
| Tokens.Validate | nonfungible/moveparser.cpp:79-212 | what the parser accepts: new assets and amounts in range, and transfers and burns of no more than the sender owns |
| TokenEffects.TransferEffect | nonfungible/moveparser.cpp:132-177 | exactly when a transfer is accepted; it moves the amount from the sender to the recipient and changes nothing else |
| TokenEffects.BurnEffect | nonfungible/moveparser.cpp:179-212 | exactly when a burn is accepted; it takes the amount from the sender and changes nothing else |
| TokenEffects.MintEffect | nonfungible/moveparser.cpp:79-130 | exactly when a mint is accepted; it creates that asset with its data and gives the supply to the minter |
| TokenEffects.OperationsInOrder | nonfungible/moveparser.cpp:214-240 | the operations of an array are applied one by one from the first |
| TokenProofs.EffectAgrees | nonfungible/pending.cpp:88-118 | one valid operation keeps overlay and database in agreement, self-transfers and deleted rows included |
| TokenProofs.OperationAgrees | nonfungible/pending.cpp:120-137 | overlay and database accept the same operations |
| TokenProofs.OverlayAgrees | nonfungible/pending.cpp:88-159 | for every database and list of moves, the pending view of assets and balances is the database after the moves |
| TokenProofs.UpdateTotal | nonfungible/moveprocessor.cpp:21-52 | one update changes the asset's total by its amount and no other total |
| TokenProofs.EffectsInRange | nonfungible/moveprocessor.cpp:21-94 | no CHECK on the range of a balance fails, before or after either half of a transfer |
| TokenProofs.EffectConserves | nonfungible/moveprocessor.cpp:54-94 | a valid operation changes the total by what it mints or burns |
| TokenProofs.SupplyIsConserved | nonfungible/moveprocessor.cpp:21-103 | after every sequence of moves, each asset's balances sum to minted minus burnt, within 0..2^60, all rows are positive and of existing assets |
| TokenProofs.PendingInRange | nonfungible/pending.cpp:88-137 | pending balances on any confirmed history are those after confirming the moves, and in range |
| TokenLedger.MoveProcessor.UpdateBalance | nonfungible/moveprocessor.cpp:21-52 | replaces, inserts or deletes the row |
| TokenLedger.MoveProcessor.ProcessAll | nonfungible/moveprocessor.cpp:96-104 | all moves of a block are applied in order, and the supply stays conserved |
| TokenLedger.MoveProcessor.HandleOperation | nonfungible/moveparser.cpp:59-77 | a valid operation is applied, any other ignored |
| TokenLedger.PendingStateUpdater.HandleOperation | nonfungible/pending.cpp:88-137 | a valid operation changes the overlay, never the database |
| TokenLedger.PendingStateUpdater.GetBalance | nonfungible/pending.cpp:129-137 | looks into the overlay first |
| TokenLedger.PendingTracker.AddPendingMove | nonfungible/pending.cpp:151-159 | after each added move the view agrees with a database to which all of them were applied |

## Left out

- JSON parsing, protocol buffers, base64, SHA-256, SQL text, LMDB and SQLite internals: moves start typed, with a case for everything malformed; proofs and states are compared as values.
- RPC servers and clients, ZeroMQ, threads, condition variables and timeouts: plumbing around the modelled calls.
- MemoryStorage's rollback, which keeps what was written: a rollback in the model returns to the committed data; memory storage never fails a write, and where the source rolls it back it clears it next.
- TransactionManager.SetStorage and the regtest cross-checks of cached heights: the storage is fixed, and the cached height is proved right.
- Pruning of undo data (PruningQueue): block sync is modelled without it, so undo data is always complete.
- Protocol-version and unknown-field checks: one flag on signed data that accepted proofs never carry.
- GetShotMove and the JSON texts of moves on the chain: formatting only; the text of a declared loss is a function of channel and reinitialisation.
- DaemonRuns.Life: one reinitialisation from the block that shows it on; a restarted daemon, which has forgotten position, salt and seed, and what happens in between for other reinitialisations are not part of it (`ShipsDaemon.ReopeningFails` is why).
- GameStorage.Storage.Clear: always succeeds, while LMDBStorage::Clear passes on a transaction that has to be retried because the map was full (xayagame/lmdbstorage.cpp:108-126), after which the old data is still there.
- ShipsPending (create, join and abort lists of pending moves): copies of confirmed validation without a property of their own; its state proofs are in `PendingChannels`.
- The confirmed state and block that a pending-move callback reads while it runs: passed as arguments.
- CHECKs that the move sender and the broadcast are set: the modelled objects always have it.
- ChannelManagers.ChannelManager.ProcessOnChain: takes the truth of on-chain data as a precondition, which `LedgerHistories.LedgerIsTruthful` provides at every height of one chain; that two competing chains agree on a reinitialisation id is not shown.
- ShipsRules.BoardIsLawful: channels with no or more than two participants, for which IsValid fails a CHECK of its own and which the ledger never creates, are modelled as not parsing.
- LedgerRuns.Ledger: is about all runs of blocks; where a block fails a CHECK, the source stops instead of going on with the next one.
- Mover.ProcessForward: coordinates are unbounded integers; `Mover.StatesInOrder` bounds them by the number of blocks, so 32 bits suffice for every chain shorter than 2^31 blocks.
- ShipsLogics.ShipsLogic.UpdateState: the ledger's history of closed channels is a ghost log; rows are listed by a query in an arbitrary order given with the block.
- TokenLedger.MoveProcessor.HandleOperation: validation is a function shared with the overlay instead of a base class with virtual calls.
