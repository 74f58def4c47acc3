/**
 * The channel daemon of Battleships (ships/channel.cpp under gamechannel/channelmanager.cpp): what
 * one call does if the daemon knows a state of a game and the player's own commitments in it.
 */
module ShipsDaemon {
  import opened Wrappers
  import opened Channels
  import opened StateProofs
  import opened RollingStates
  import opened ChannelGames
  import opened ChannelManagers
  import opened ShipsChannels
  import opened ShipsRules
  import Board
  import BoardRuns
  import Fleets
  import Grids
  import Placement

  /**
   * A channel of Battleships between two players, the player whose daemon this is, and whether that
   * player is patient: only shoots, and never asks the daemon to reveal the position.
   */
  datatype Seat = Seat(
    codec: Codec, crypto: Board.Crypto, chain: Chain, id: ChannelId, meta: Metadata, i: Board.Player, patient: bool)
  {
    ghost function Env(): Env<ParsedState> { Rules(codec, crypto, chain).env }

    ghost function At(): Context<ParsedState> { Context(Env(), id, meta) }

    function Initial(): BoardState { codec.encode(Board.InitialBoardState()) }

    ghost predicate Valid() {
      && codec.Lawful() && HashLength(crypto)
      && |meta.participants| == 2 && meta.participants[0].name != meta.participants[1].name
    }

    function Name(): string
      requires |meta.participants| == 2
    {
      meta.participants[i].name
    }

    function Names(): seq<string> {
      seq(|meta.participants|, k requires 0 <= k < |meta.participants| => meta.participants[k].name)
    }
  }

  /** A position that is set is legal, as SetPosition makes sure. */
  ghost predicate LegalIfSet(secret: Secret) {
    secret.IsPositionSet() ==> Fleets.LegalPlacement(Grids.Occupied(secret.position))
  }

  /** In addition, the parts of the secret have the lengths that the board asks for. */
  ghost predicate GoodSecret(secret: Secret, rnd: string) {
    && |secret.salt| <= Board.NUM_BYTES && |secret.seed0| <= Board.NUM_BYTES && |rnd| <= Board.NUM_BYTES
    && LegalIfSet(secret)
  }

  /** A state of a game, in which the player has committed to the position, or to nothing yet. */
  ghost predicate Placed(seat: Seat, secret: Secret, p: ParsedState) {
    && p.participants == 2 && BoardRuns.Inv(p.state)
    && CommittedPosition(seat.crypto, secret, seat.i, p.state)
    && (secret.IsPositionSet() || Unplayed(seat.i, p.state))
  }

  /** A state of a game that keeps to the secret, and in which a patient player was not treated unfairly. */
  ghost predicate OfGame(seat: Seat, secret: Secret, p: ParsedState) {
    && Placed(seat, secret, p) && Committed(seat.crypto, secret, seat.i, p.state)
    && (seat.patient && secret.IsPositionSet() ==> BoardRuns.FairSoFar(seat.i, secret.position, p.state))
  }

  // ---- The daemon only knows states of games ----

  ghost predicate EncodesGame(seat: Seat, secret: Secret, s: BoardState) {
    seat.At().Parse(s).Some? && OfGame(seat, secret, seat.At().Parse(s).value)
  }

  /** If the player signed the state, it is of a game in which the player keeps the secret. */
  ghost predicate GenuineState(seat: Seat, secret: Secret, d: SignedData) {
    seat.i in seat.At().Signers(TOPIC, d) ==> EncodesGame(seat, secret, d.data)
  }

  /** The player's signatures in the proof are genuine; nothing is said about the opponent's. */
  ghost predicate Genuine(seat: Seat, secret: Secret, proof: StateProof) {
    && GenuineState(seat, secret, proof.initial)
    && forall k :: 0 <= k < |proof.transitions| ==> GenuineState(seat, secret, proof.transitions[k].newState)
  }

  /** One legal signed step from a state of a game, by either player, leads to a state of a game. */
  lemma StepOfGame(seat: Seat, secret: Secret, s: BoardState, t: StateTransition)
    requires seat.Valid() && GenuineState(seat, secret, t.newState)
    requires EncodesGame(seat, secret, s) && LegalStep(seat.At(), s, t)
    ensures EncodesGame(seat, secret, t.newState.data)
  {
    hide BoardRuns.Inv, OfGame, Board.ApplyMove, Context.Signers;
    var c, p := seat.At(), seat.At().Parse(s).value;
    MoveResult(seat.codec, seat.crypto, seat.chain, seat.id, seat.meta, p, t.move);
    var m := seat.codec.decodeMove(t.move).value;
    TurnWhileMoving(p);
    if p.state.turn.value != seat.i {
      OthersMove(seat, secret, p, m);
    }
  }

  /** The opponent's moves lead from states of a game to states of that game. */
  lemma OthersMove(seat: Seat, secret: Secret, p: ParsedState, m: Board.Move)
    requires OfGame(seat, secret, p) && Board.CanMove(p.state) && p.state.turn.value != seat.i
    requires Board.ApplyMove(seat.crypto, p.state, m).Some?
    ensures var r := Board.ApplyMove(seat.crypto, p.state, m).value;
      BoardRuns.Inv(r) && OfGame(seat, secret, Parsed(2, r))
  {
    MoveOfGame(seat, secret, p, m);
  }

  /** So do the player's own that keep to the secret, and are honest and patient if that is claimed. */
  lemma MoveOfGame(seat: Seat, secret: Secret, p: ParsedState, m: Board.Move)
    requires OfGame(seat, secret, p) && Board.CanMove(p.state) && Board.ApplyMove(seat.crypto, p.state, m).Some?
    requires KeepsSecret(seat.crypto, secret, seat.i, p.state, m)
    requires secret.IsPositionSet() || p.state.turn.value != seat.i
    requires seat.patient && secret.IsPositionSet() ==>
      BoardRuns.HonestMove(seat.i, secret.position, p.state, m) && BoardRuns.PatientMove(seat.i, p.state, m)
    ensures var r := Board.ApplyMove(seat.crypto, p.state, m).value;
      BoardRuns.Inv(r) && OfGame(seat, secret, Parsed(2, r))
  {
    hide BoardRuns.Inv, Committed, CommittedPosition, Board.ApplyMove, BoardRuns.FairSoFar, KeepsSecret,
      BoardRuns.HonestMove, BoardRuns.PatientMove, Unplayed;
    BoardRuns.StepInv(seat.crypto, p.state, m);
    CommittedStep(seat.crypto, secret, seat.i, p.state, m);
    CommittedIs(seat.crypto, secret, seat.i, Board.ApplyMove(seat.crypto, p.state, m).value);
    if seat.patient && secret.IsPositionSet() {
      BoardRuns.FairStep(seat.crypto, p.state, m, seat.i, secret.position);
    }
    if !secret.IsPositionSet() {
      StillUnplayed(seat.crypto, seat.i, p.state, m);
    }
  }

  lemma CommittedIs(crypto: Board.Crypto, secret: Secret, i: Board.Player, s: Board.BoardState)
    requires Committed(crypto, secret, i, s)
    ensures CommittedPosition(crypto, secret, i, s)
  {
  }

  lemma StillUnplayed(crypto: Board.Crypto, i: Board.Player, s: Board.BoardState, m: Board.Move)
    requires BoardRuns.Inv(s) && Board.CanMove(s) && Board.ApplyMove(crypto, s, m).Some?
    requires Unplayed(i, s) && s.turn.value != i
    ensures Unplayed(i, Board.ApplyMove(crypto, s, m).value)
  {
  }

  /** While nothing of the player is on the board, any other secret with a position would do. */
  lemma UnplayedOfGame(seat: Seat, secret: Secret, other: Secret, p: ParsedState)
    requires OfGame(seat, secret, p) && Unplayed(seat.i, p.state)
    requires other.IsPositionSet() && Fleets.LegalPlacement(Grids.Occupied(other.position))
    ensures OfGame(seat, other, p)
  {
    hide Fleets.LegalPlacement, Grids.Occupied;
  }

  lemma {:induction false} PathOfGame(seat: Seat, secret: Secret, proof: StateProof, k: nat, n: nat)
    requires seat.Valid() && Genuine(seat, secret, proof)
    requires LegalPath(seat.At(), proof.initial.data, proof.transitions)
    requires k <= n <= |proof.transitions|
    requires EncodesGame(seat, secret, StateBefore(proof.initial.data, proof.transitions, k))
    ensures EncodesGame(seat, secret, StateBefore(proof.initial.data, proof.transitions, n))
    decreases n
  {
    hide EncodesGame, GenuineState, LegalStep, LegalPath, StateBefore, Seat.At, Seat.Valid;
    if k < n {
      PathOfGame(seat, secret, proof, k, n - 1);
      StepAt(seat.At(), proof.initial.data, proof.transitions, n - 1);
      StepOfGame(seat, secret, StateBefore(proof.initial.data, proof.transitions, n - 1), proof.transitions[n - 1]);
    }
  }

  lemma InitialOfGame(seat: Seat, secret: Secret, s: BoardState)
    requires seat.Valid() && LegalIfSet(secret) && seat.At().Equivalent(s, seat.Initial())
    ensures EncodesGame(seat, secret, s)
  {
    BoardRuns.InitialInv();
    assert seat.codec.decode(seat.Initial()) == Some(Board.InitialBoardState());
    if seat.patient && secret.IsPositionSet() {
      BoardRuns.FairInitially(seat.i, secret.position);
    }
  }

  /** A valid proof in which the player's signatures are genuine ends in a state of a game. */
  lemma ProofOfGame(seat: Seat, secret: Secret, proof: StateProof)
    requires seat.Valid() && LegalIfSet(secret)
    requires Genuine(seat, secret, proof) && ValidProof(seat.At(), seat.Initial(), proof)
    ensures EncodesGame(seat, secret, UnverifiedProofEndState(proof))
  {
    hide EncodesGame, Context.Signers, LegalStep, Rules;
    var c, start, path := seat.At(), proof.initial.data, proof.transitions;
    if c.Equivalent(start, seat.Initial()) {
      InitialOfGame(seat, secret, start);
      PathOfGame(seat, secret, proof, 0, |path|);
    } else {
      assert seat.i in SignersIn(c, States(proof));
      var k :| 0 <= k < |States(proof)| && seat.i in c.Signers(TOPIC, States(proof)[k]);
      StatesAt(proof);
      assert GenuineState(seat, secret, States(proof)[k]);
      PathOfGame(seat, secret, proof, k, |path|);
    }
  }

  /** The states of an extended proof are among those of the proof, and the new one. */
  lemma ExtendedStates<P>(c: Context<P>, wallet: Wallet, proof: StateProof, mv: BoardMove)
    requires c.Parse(UnverifiedProofEndState(proof)).Some? && Extendable(c, wallet, proof, mv)
    ensures var states := States(Extended(c, wallet, proof, mv));
      forall k :: 0 <= k < |states| ==>
        states[k] in States(proof) || states[k] == NewTransition(c, wallet, proof, mv).newState
  {
    hide MinimalStart, NewTransition, Extendable, Context.Parse;
    var trans := NewTransition(c, wallet, proof, mv);
    var chain, extended := FullChain(proof, trans), Extended(c, wallet, proof, mv);
    var begin := ExtendedIsMinimal(c, wallet, proof, mv);
    StartInChain(c, chain, begin);
    forall k | 0 <= k < |States(extended)|
      ensures States(extended)[k] in States(proof) || States(extended)[k] == trans.newState
    {
      assert States(extended)[k] == chain[begin + k].newState;
      assert begin + k <= |proof.transitions| ==> chain[begin + k].newState == States(proof)[begin + k];
    }
  }

  lemma GenuineIs(seat: Seat, secret: Secret, proof: StateProof)
    ensures Genuine(seat, secret, proof) <==>
      forall k :: 0 <= k < |States(proof)| ==> GenuineState(seat, secret, States(proof)[k])
  {
    hide GenuineState;
    StatesAt(proof);
    if forall k :: 0 <= k < |States(proof)| ==> GenuineState(seat, secret, States(proof)[k]) {
      assert GenuineState(seat, secret, States(proof)[0]);
      forall k | 0 <= k < |proof.transitions| ensures GenuineState(seat, secret, proof.transitions[k].newState) {
        assert GenuineState(seat, secret, States(proof)[k + 1]);
      }
    }
  }

  /** Signing a state of the game onto a proof keeps the player's signatures in it genuine. */
  lemma ExtensionStaysGenuine(
      seat: Seat, secret: Secret, wallet: Wallet, proof: StateProof, mv: BoardMove)
    requires Genuine(seat, secret, proof)
    requires seat.At().Parse(UnverifiedProofEndState(proof)).Some? && Extendable(seat.At(), wallet, proof, mv)
    requires EncodesGame(seat, secret, ResultOf(seat.At(), wallet, proof, mv))
    ensures Genuine(seat, secret, Extended(seat.At(), wallet, proof, mv))
  {
    hide EncodesGame, Seat.At, Context.Signers, Genuine, Extended, Extendable, States;
    GenuineIs(seat, secret, proof);
    GenuineIs(seat, secret, Extended(seat.At(), wallet, proof, mv));
    ExtendedStates(seat.At(), wallet, proof, mv);
  }

  // ---- What the daemon does by itself ----

  /**
   * What the daemon is asked for when the player is on turn, as the object of ships/channel.cpp
   * answers it. Where that fails a CHECK, it is a move that no board accepts.
   */
  function DaemonMove(seat: Seat, secret: Secret, rnd: string, p: ParsedState): Option<BoardMove> {
    if p.participants != 2 || !Board.CanMove(p.state) || p.state.turn.value != seat.i then None
    else if !MayAsk(secret, seat.i, p.state) then Some(seat.codec.encodeMove(Board.NotSet))
    else
      match AutoMove(seat.crypto, secret, seat.i, p.state, rnd).0
      case None => None
      case Some(m) => Some(seat.codec.encodeMove(m))
  }

  /** What it does on the chain, with a declared loss pending or not. */
  function DaemonReaction(seat: Seat, closePending: bool, p: ParsedState): Reaction
    requires |seat.meta.participants| == 2
  {
    match OnChainMove(seat.Names()[..p.participants], seat.Name(), p.state, closePending)
    case NoClosing => NoReaction
    case DeclaresLoss => Sends(seat.codec.lossMove(seat.id, seat.meta.reinit))
    case NoLoser => Fails
  }

  ghost predicate ReactsAs(seat: Seat, closePending: bool, w: World<ParsedState>)
    requires |seat.meta.participants| == 2
  {
    forall p :: w.onChainMove(p) == DaemonReaction(seat, closePending, p)
  }

  /** The daemon's surroundings: its own moves on the board and the chain, and a wallet that can sign for the player. */
  ghost predicate PlaysShips(seat: Seat, secret: Secret, rnd: string, w: World<ParsedState>)
    requires |seat.meta.participants| == 2
  {
    && HonestWallet(seat.Env(), w.wallet)
    && (forall p :: w.autoMove(p) == DaemonMove(seat, secret, rnd, p))
    && (ReactsAs(seat, false, w) || ReactsAs(seat, true, w))
    && (forall msg :: w.wallet(seat.meta.participants[seat.i].address, msg).Some?)
  }

  lemma PlaysTrusted(seat: Seat, secret: Secret, rnd: string, w: World<ParsedState>)
    requires seat.Valid() && PlaysShips(seat, secret, rnd, w)
    ensures Trusted(seat.Env(), w)
  {
    hide Context.Lawful;
    forall id, meta ensures Context(seat.Env(), id, meta).Lawful() {
      BoardIsLawful(seat.codec, seat.crypto, seat.chain, id, meta);
    }
  }

  /** The reaction on the chain fails a CHECK exactly in finished states that name a winner above 1. */
  lemma ReactionFailsIff(seat: Seat, secret: Secret, rnd: string, w: World<ParsedState>, p: ParsedState)
    requires seat.Valid() && PlaysShips(seat, secret, rnd, w) && p.participants == 2
    ensures w.onChainMove(p) == Fails <==> p.state.winner.Some? && p.state.winner.value > 1
  {
    ReactionIs(seat, secret, rnd, w, p);
    LoserCheckFails(seat.Names()[..2], seat.Name(), p.state, false);
    LoserCheckFails(seat.Names()[..2], seat.Name(), p.state, true);
  }

  lemma ReactionIs(seat: Seat, secret: Secret, rnd: string, w: World<ParsedState>, p: ParsedState)
    requires seat.Valid() && PlaysShips(seat, secret, rnd, w) && p.participants == 2
    ensures w.onChainMove(p) == DaemonReaction(seat, false, p) || w.onChainMove(p) == DaemonReaction(seat, true, p)
  {
    hide DaemonReaction;
    if ReactsAs(seat, false, w) {
      assert w.onChainMove(p) == DaemonReaction(seat, false, p);
    } else {
      assert w.onChainMove(p) == DaemonReaction(seat, true, p);
    }
  }

  /** In a state of a game it never fails, and declares nothing but the player's own loss. */
  lemma ReactionInGame(seat: Seat, secret: Secret, rnd: string, w: World<ParsedState>, p: ParsedState)
    requires seat.Valid() && PlaysShips(seat, secret, rnd, w) && p.participants == 2 && BoardRuns.Inv(p.state)
    ensures w.onChainMove(p) == NoReaction ||
            (w.onChainMove(p) == Sends(seat.codec.lossMove(seat.id, seat.meta.reinit))
             && p.state.winner == Some(Board.Opponent(seat.i)))
    ensures ReactsAs(seat, false, w) && p.state.winner == Some(Board.Opponent(seat.i)) ==>
      w.onChainMove(p) == Sends(seat.codec.lossMove(seat.id, seat.meta.reinit))
  {
    hide BoardRuns.Inv, OnChainMove;
    ReactionIs(seat, secret, rnd, w, p);
    assert seat.Names()[..2] == seat.Names() && seat.Names()[seat.i] == seat.Name();
    LoserDeclares(seat.Names(), seat.i, p.state, false);
    LoserDeclares(seat.Names(), seat.i, p.state, true);
  }

  // ---- Automatic moves ----

  /** The rolling state is about this channel and knows a state of its game. */
  ghost predicate KnowsGame(seat: Seat, secret: Secret, st: Rolling<ParsedState>) {
    AtSeat(seat, st) && OfGame(seat, secret, st.reinits[st.reinitId].latestState)
  }

  /** The channel's reinitialisation is the current one. */
  ghost predicate AtSeat(seat: Seat, st: Rolling<ParsedState>) {
    st.reinitId in st.reinits && st.reinits[st.reinitId].meta == seat.meta
  }

  /** A due automatic move is a move of the player on turn that the board counts, and accepts if the seed is kept. */
  lemma DueMoveIsMove(
      seat: Seat, secret: Secret, rnd: string, w: World<ParsedState>, st: Rolling<ParsedState>)
    requires seat.Valid() && GoodSecret(secret, rnd) && PlaysShips(seat, secret, rnd, w)
    requires AtSeat(seat, st) && Placed(seat, secret, st.reinits[st.reinitId].latestState)
    requires AutoMoveDueIn(seat.Env(), w, seat.Name(), st)
    ensures var p := st.reinits[st.reinitId].latestState;
      && secret.IsPositionSet()
      && Board.CanMove(p.state) && p.state.turn.value == seat.i && MayAsk(secret, seat.i, p.state)
      && var m := AutoMove(seat.crypto, secret, seat.i, p.state, rnd).0;
      && m.Some? && w.autoMove(p) == Some(seat.codec.encodeMove(m.value)) && !BoardRuns.GoesUncounted(m.value)
      && (Board.ApplyMove(seat.crypto, p.state, m.value).Some? <==> SeedKept(seat.crypto, secret, p.state))
      && (IsMove(seat.codec, seat.crypto, p, w.autoMove(p).value) <==> SeedKept(seat.crypto, secret, p.state))
  {
    hide BoardRuns.Inv, CommittedPosition, Board.ApplyMove, Fleets.LegalPlacement, SeedKept;
    var p := st.reinits[st.reinitId].latestState;
    assert w.autoMove(p) == DaemonMove(seat, secret, rnd, p);
    OnTurnMayAsk(seat.crypto, secret, seat.i, p.state, rnd);
    AutoMoveAcceptedIff(seat.crypto, secret, seat.i, p.state, rnd);
    Placement.LegalPositionHasLowHalf(secret.position);
  }

  /**
   * In a state of a game with the player's own position commitment, a due move can be played if and
   * only if a seed that it reveals is still the one committed to.
   */
  lemma DueMoveCanBePlayed(
      seat: Seat, secret: Secret, rnd: string, w: World<ParsedState>, st: Rolling<ParsedState>)
    requires seat.Valid() && GoodSecret(secret, rnd) && PlaysShips(seat, secret, rnd, w)
    requires AtSeat(seat, st) && Placed(seat, secret, st.reinits[st.reinitId].latestState)
    requires Sound(seat.Env(), seat.id, st) && AutoMoveDueIn(seat.Env(), w, seat.Name(), st)
    ensures CanPlay(seat.Env(), seat.id, w, st, w.autoMove(st.reinits[st.reinitId].latestState).value)
       <==> SeedKept(seat.crypto, secret, st.reinits[st.reinitId].latestState.state)
  {
    hide BoardRuns.Inv, CommittedPosition, Board.ApplyMove, AutoMove, DaemonMove, ValidProof, AutoMoveDueIn,
      HonestWallet, Context.MoveRises, IsMove, SeedKept;
    var e := st.reinits[st.reinitId];
    assert SoundEntry(seat.Env(), seat.id, st.reinitId, e);
    DueMoveIsMove(seat, secret, rnd, w, st);
    var mv := w.autoMove(e.latestState).value;
    MoveResult(seat.codec, seat.crypto, seat.chain, seat.id, seat.meta, e.latestState, mv);
    if SeedKept(seat.crypto, secret, e.latestState.state) {
      TurnWhileMoving(e.latestState);
      PlayableMove(seat, w, st, mv);
    }
  }

  /** A counted move in a state of a game that is accepted and can be signed will be taken over. */
  lemma PlayableMove(seat: Seat, w: World<ParsedState>, st: Rolling<ParsedState>, mv: BoardMove)
    requires seat.Valid() && Sound(seat.Env(), seat.id, st) && AtSeat(seat, st)
    requires var e := st.reinits[st.reinitId];
      && seat.At().Parse(UnverifiedProofEndState(e.proof)).Some? && Extendable(seat.At(), w.wallet, e.proof, mv)
      && BoardRuns.Inv(e.latestState.state)
      && (seat.codec.decodeMove(mv).Some? ==> !BoardRuns.GoesUncounted(seat.codec.decodeMove(mv).value))
    ensures CanPlay(seat.Env(), seat.id, w, st, mv)
    ensures IsMove(seat.codec, seat.crypto, st.reinits[st.reinitId].latestState, mv)
  {
    hide BoardRuns.Inv, Board.ApplyMove, ValidProof, Context.MoveRises;
    var e := st.reinits[st.reinitId];
    assert SoundEntry(seat.Env(), seat.id, st.reinitId, e);
    MoveResult(seat.codec, seat.crypto, seat.chain, seat.id, seat.meta, e.latestState, mv);
    GameMovesRise(seat.codec, seat.crypto, seat.chain, seat.id, seat.meta, e.latestState, mv);
  }

  /** What is known after a move that was taken over. */
  lemma StateAfterMove(seat: Seat, w: World<ParsedState>, st: Rolling<ParsedState>, mv: BoardMove)
    requires seat.Valid() && Trusted(seat.Env(), w) && Sound(seat.Env(), seat.id, st)
    requires CanPlay(seat.Env(), seat.id, w, st, mv) && AtSeat(seat, st)
    requires var p := st.reinits[st.reinitId].latestState;
      p.participants == 2 && BoardRuns.Inv(p.state) && IsMove(seat.codec, seat.crypto, p, mv)
    ensures var t := Moved(seat.Env(), seat.id, w, st, mv);
      var p := st.reinits[st.reinitId].latestState;
      var r := Board.ApplyMove(seat.crypto, p.state, seat.codec.decodeMove(mv).value).value;
      && Sound(seat.Env(), seat.id, t) && AtSeat(seat, t) && t.reinitId == st.reinitId
      && BoardRuns.Inv(r) && t.reinits[t.reinitId].latestState == Parsed(2, r)
      && LatestCount(seat.Env(), t) > LatestCount(seat.Env(), st)
  {
    hide BoardRuns.Inv, Board.ApplyMove, ValidProof, CanPlay, Trusted, Moved;
    var t := Moved(seat.Env(), seat.id, w, st, mv);
    MovedIs(seat.Env(), seat.id, w, st, mv);
    MovedOn(seat.Env(), st, t, mv);
    assert SoundEntry(seat.Env(), seat.id, t.reinitId, t.reinits[t.reinitId]);
    var p := st.reinits[st.reinitId].latestState;
    MoveResult(seat.codec, seat.crypto, seat.chain, seat.id, seat.meta, p, mv);
    BoardRuns.StepInv(seat.crypto, p.state, seat.codec.decodeMove(mv).value);
  }

  /** Nothing is due for the player when the opponent is on turn. */
  lemma NotDueForOther(seat: Seat, w: World<ParsedState>, st: Rolling<ParsedState>)
    requires seat.Valid() && AtSeat(seat, st)
    requires var p := st.reinits[st.reinitId].latestState;
      p.participants == 2 && p.state.turn != Some(seat.i)
    ensures !AutoMoveDueIn(seat.Env(), w, seat.Name(), st)
  {
  }

  /** Drawing the seed in the first commitment is the only automatic move that changes the secret. */
  lemma SecretStays(seat: Seat, secret: Secret, rnd: string, s: Board.BoardState)
    requires MayAsk(secret, seat.i, s) && |rnd| <= Board.NUM_BYTES
    ensures var (mv, next) := AutoMove(seat.crypto, secret, seat.i, s, rnd);
      && next.position == secret.position && next.salt == secret.salt
      && (GoodSecret(secret, rnd) ==> GoodSecret(next, rnd))
      && (next == secret ||
          (mv.Some? && Board.GetPhase(s) == Board.FirstCommitment
           && (Board.ApplyMove(seat.crypto, s, mv.value).Some? ==>
                 Board.ApplyMove(seat.crypto, s, mv.value).value.turn == Some(1 - seat.i))))
  {
    hide Fleets.LegalPlacement, Grids.Occupied;
  }

  /** If the player is on turn, a kept seed is all that is missing to keeping both commitments. */
  lemma SeedIsLast(crypto: Board.Crypto, secret: Secret, i: Board.Player, s: Board.BoardState)
    requires Board.CanMove(s) && s.turn.value == i && CommittedPosition(crypto, secret, i, s)
    ensures Committed(crypto, secret, i, s) ==> SeedKept(crypto, secret, s)
    ensures SeedKept(crypto, secret, s) ==> Committed(crypto, secret, i, s)
  {
  }

  /** After an accepted automatic move the state is of a game that keeps to the secret as it is then. */
  lemma AutoMoveOfGame(seat: Seat, secret: Secret, rnd: string, p: ParsedState)
    requires OfGame(seat, secret, p) && MayAsk(secret, seat.i, p.state) && secret.IsPositionSet()
    requires |rnd| <= Board.NUM_BYTES
    requires var m := AutoMove(seat.crypto, secret, seat.i, p.state, rnd).0;
      m.Some? && Board.ApplyMove(seat.crypto, p.state, m.value).Some?
    ensures var (m, next) := AutoMove(seat.crypto, secret, seat.i, p.state, rnd);
      var r := Board.ApplyMove(seat.crypto, p.state, m.value).value;
      BoardRuns.Inv(r) && OfGame(seat, next, Parsed(2, r))
  {
    hide BoardRuns.Inv, Committed, CommittedPosition, Board.ApplyMove, BoardRuns.FairSoFar, AutoMove,
      BoardRuns.HonestMove, BoardRuns.PatientMove;
    var (m, next) := AutoMove(seat.crypto, secret, seat.i, p.state, rnd);
    BoardRuns.StepInv(seat.crypto, p.state, m.value);
    AutoMoveCommits(seat.crypto, secret, seat.i, p.state, rnd);
    CommittedIs(seat.crypto, next, seat.i, Board.ApplyMove(seat.crypto, p.state, m.value).value);
    SecretStays(seat, secret, rnd, p.state);
    AutoMoveHonest(seat.crypto, secret, seat.i, p.state, rnd);
    if seat.patient {
      BoardRuns.FairStep(seat.crypto, p.state, m.value, seat.i, secret.position);
    }
  }

  /** One due automatic move of a player who keeps the secret, and what is known after it. */
  lemma DueStep(seat: Seat, secret: Secret, rnd: string, w: World<ParsedState>, st: Rolling<ParsedState>)
    requires seat.Valid() && GoodSecret(secret, rnd) && PlaysShips(seat, secret, rnd, w) && KnowsGame(seat, secret, st)
    requires Sound(seat.Env(), seat.id, st) && AutoMoveDueIn(seat.Env(), w, seat.Name(), st)
    ensures Trusted(seat.Env(), w) && secret.IsPositionSet()
    ensures var p := st.reinits[st.reinitId].latestState;
      && p.participants == 2 && MayAsk(secret, seat.i, p.state) && w.autoMove(p).Some?
      && CanPlay(seat.Env(), seat.id, w, st, w.autoMove(p).value)
      && var (m, next) := AutoMove(seat.crypto, secret, seat.i, p.state, rnd);
         var t := Moved(seat.Env(), seat.id, w, st, w.autoMove(p).value);
      && Sound(seat.Env(), seat.id, t) && t.reinitId == st.reinitId && KnowsGame(seat, next, t)
      && LatestCount(seat.Env(), t) > LatestCount(seat.Env(), st)
      && GoodSecret(next, rnd) && next.position == secret.position
      && (next != secret ==>
            Unplayed(seat.i, p.state) && !AutoMoveDueIn(seat.Env(), w, seat.Name(), t)
            && t.reinits[t.reinitId].latestState.state.turn != Some(seat.i)
            && Board.GetPhase(p.state) == Board.FirstCommitment)
  {
    hide BoardRuns.Inv, Committed, CommittedPosition, Board.ApplyMove, AutoMove, PlaysShips, AutoMoveDueIn, Sound, CanPlay,
      Moved, IsMove, Trusted, LegalIfSet, MayAsk, BoardRuns.FairSoFar, SeedKept;
    PlaysTrusted(seat, secret, rnd, w);
    var p := st.reinits[st.reinitId].latestState;
    DueMoveIsMove(seat, secret, rnd, w, st);
    SeedIsLast(seat.crypto, secret, seat.i, p.state);
    DueMoveCanBePlayed(seat, secret, rnd, w, st);
    var mv := w.autoMove(p).value;
    StateAfterMove(seat, w, st, mv);
    AutoMoveOfGame(seat, secret, rnd, p);
    SecretStays(seat, secret, rnd, p.state);
    if AutoMove(seat.crypto, secret, seat.i, p.state, rnd).1 != secret {
      NotDueForOther(seat, w, Moved(seat.Env(), seat.id, w, st, mv));
    }
  }

  /**
   * The automatic moves of a player who keeps the secret never get stuck while the channel exists,
   * and lead to a state of the game.
   */
  lemma {:induction false} DaemonNeverStuck(
      seat: Seat, secret: Secret, rnd: string, w: World<ParsedState>, st: Rolling<ParsedState>)
    requires seat.Valid() && GoodSecret(secret, rnd) && PlaysShips(seat, secret, rnd, w) && KnowsGame(seat, secret, st)
    requires Sound(seat.Env(), seat.id, st)
    ensures Trusted(seat.Env(), w)
    ensures var ran := AutoRun(seat.Env(), seat.id, w, seat.Name(), true, st);
      && !ran.stuck && AtSeat(seat, ran.st)
      && var p := ran.st.reinits[ran.st.reinitId].latestState; p.participants == 2 && BoardRuns.Inv(p.state)
    decreases 0x1_0000_0000 - LatestCount(seat.Env(), st)
  {
    hide BoardRuns.Inv, Committed, CommittedPosition, PlaysShips, AutoMoveDueIn, Sound, CanPlay, Moved,
      Trusted, GoodSecret, MayAsk, BoardRuns.FairSoFar, AutoMove;
    PlaysTrusted(seat, secret, rnd, w);
    if AutoMoveDueIn(seat.Env(), w, seat.Name(), st) {
      DueStep(seat, secret, rnd, w, st);
      var p := st.reinits[st.reinitId].latestState;
      var t := Moved(seat.Env(), seat.id, w, st, w.autoMove(p).value);
      if AutoMove(seat.crypto, secret, seat.i, p.state, rnd).1 == secret {
        DaemonNeverStuck(seat, secret, rnd, w, t);
      }
    }
  }

  /** Neither does anything else fail that a new state leads to. */
  lemma DaemonReacts(seat: Seat, secret: Secret, rnd: string, w: World<ParsedState>, st: Rolling<ParsedState>)
    requires seat.Valid() && GoodSecret(secret, rnd) && PlaysShips(seat, secret, rnd, w) && KnowsGame(seat, secret, st)
    requires Sound(seat.Env(), seat.id, st)
    ensures Trusted(seat.Env(), w)
    ensures !React(seat.Env(), seat.id, w, seat.Name(), true, st).stuck
  {
    hide BoardRuns.Inv, PlaysShips, Sound, Trusted, GoodSecret, AutoRun;
    DaemonNeverStuck(seat, secret, rnd, w, st);
    var t := AutoRun(seat.Env(), seat.id, w, seat.Name(), true, st).st;
    ReactionInGame(seat, secret, rnd, w, t.reinits[t.reinitId].latestState);
  }

  /**
   * With only the position commitment being the player's own, a new state makes the daemon fail a
   * CHECK if and only if a seed is to be revealed now and is not the one committed to.
   */
  lemma DaemonStuckIff(seat: Seat, secret: Secret, rnd: string, w: World<ParsedState>, st: Rolling<ParsedState>)
    requires seat.Valid() && GoodSecret(secret, rnd) && PlaysShips(seat, secret, rnd, w)
    requires Sound(seat.Env(), seat.id, st) && AtSeat(seat, st)
    requires Placed(seat, secret, st.reinits[st.reinitId].latestState)
    ensures Trusted(seat.Env(), w)
    ensures var s, ran := st.reinits[st.reinitId].latestState.state, React(seat.Env(), seat.id, w, seat.Name(), true, st);
      ran.stuck <==> s.turn == Some(seat.i) && !SeedKept(seat.crypto, secret, s)
  {
    hide BoardRuns.Inv, Committed, CommittedPosition, Sound, CanPlay, Trusted, GoodSecret, HonestWallet,
      AutoMove, Board.ApplyMove, DaemonMove;
    PlaysTrusted(seat, secret, rnd, w);
    var p := st.reinits[st.reinitId].latestState;
    if p.state.turn != Some(seat.i) {
      NotDueForOther(seat, w, st);
      ReactionInGame(seat, secret, rnd, w, p);
    } else if SeedKept(seat.crypto, secret, p.state) {
      SeedIsLast(seat.crypto, secret, seat.i, p.state);
      PlaysWithoutPatience(seat, secret, rnd, w);
      DaemonReacts(seat.(patient := false), secret, rnd, w, st);
    } else {
      SeedRevealIsDue(seat, secret, rnd, w, st);
      DueMoveCanBePlayed(seat, secret, rnd, w, st);
    }
  }

  /** Whether the player is patient makes no difference to what the daemon does by itself. */
  lemma PlaysWithoutPatience(seat: Seat, secret: Secret, rnd: string, w: World<ParsedState>)
    requires seat.Valid() && PlaysShips(seat, secret, rnd, w)
    ensures PlaysShips(seat.(patient := false), secret, rnd, w)
  {
    hide AutoMove, MayAsk, OnChainMove, HonestWallet, Board.CanMove;
    var other := seat.(patient := false);
    assert other.Names() == seat.Names();
    forall p ensures w.autoMove(p) == DaemonMove(other, secret, rnd, p) {
      assert w.autoMove(p) == DaemonMove(seat, secret, rnd, p);
    }
    forall pending: bool, p ensures DaemonReaction(other, pending, p) == DaemonReaction(seat, pending, p) {
    }
  }

  lemma SeedRevealIsDue(seat: Seat, secret: Secret, rnd: string, w: World<ParsedState>, st: Rolling<ParsedState>)
    requires seat.Valid() && PlaysShips(seat, secret, rnd, w) && AtSeat(seat, st)
    requires var p := st.reinits[st.reinitId].latestState;
      && Placed(seat, secret, p) && p.state.turn == Some(seat.i) && Board.GetPhase(p.state) == Board.FirstRevealSeed
    ensures AutoMoveDueIn(seat.Env(), w, seat.Name(), st)
  {
    var p := st.reinits[st.reinitId].latestState;
    assert w.autoMove(p) == DaemonMove(seat, secret, rnd, p);
    TurnWhileMoving(p);
  }

  /**
   * A first player who opened with the seed r, and since then another reinitialisation with another
   * seed, fails a CHECK as soon as the first one's opening is answered.
   */
  lemma ReopeningFails(
      seat: Seat, secret: Secret, r: string, another: string, commitment: string, seed1: string,
      rnd: string, w: World<ParsedState>, st: Rolling<ParsedState>)
    requires seat.Valid() && seat.i == 0 && secret.IsPositionSet() && GoodSecret(secret, rnd)
    requires seat.crypto.sha(r) != seat.crypto.sha(another) && |r| <= Board.NUM_BYTES && |another| <= Board.NUM_BYTES
    requires |seed1| <= Board.NUM_BYTES && |commitment| == Board.NUM_BYTES
    requires Sound(seat.Env(), seat.id, st) && AtSeat(seat, st)
    requires st.reinits[st.reinitId].latestState == Parsed(2, Answered(seat.crypto, secret, r, commitment, seed1))
    requires PlaysShips(seat, secret.(seed0 := another), rnd, w)
    ensures Trusted(seat.Env(), w) && React(seat.Env(), seat.id, w, seat.Name(), true, st).stuck
  {
    hide PlaysShips, Sound, React, AutoMove, Trusted, Fleets.LegalPlacement;
    SeedOverwritten(seat.crypto, secret, r, another, commitment, seed1, rnd);
    DaemonStuckIff(seat, secret.(seed0 := another), rnd, w, st);
  }

  /** A move is due exactly if the player is on turn and nothing is left to the player to choose. */
  lemma DueUnlessAwaited(seat: Seat, secret: Secret, rnd: string, w: World<ParsedState>, st: Rolling<ParsedState>)
    requires seat.Valid() && PlaysShips(seat, secret, rnd, w) && AtSeat(seat, st)
    requires Placed(seat, secret, st.reinits[st.reinitId].latestState)
    ensures var s, due := st.reinits[st.reinitId].latestState.state, AutoMoveDueIn(seat.Env(), w, seat.Name(), st);
      due <==> s.turn == Some(seat.i) && !AwaitsPlayer(secret, seat.i, s)
  {
    hide BoardRuns.Inv, CommittedPosition, AutoMove, AwaitsPlayer, MayAsk;
    var p := st.reinits[st.reinitId].latestState;
    assert w.autoMove(p) == DaemonMove(seat, secret, rnd, p);
    if p.state.turn == Some(seat.i) {
      TurnWhileMoving(p);
      OnTurnMayAsk(seat.crypto, secret, seat.i, p.state, rnd);
      AutoMoveUnlessAwaited(seat.crypto, secret, seat.i, p.state, rnd);
    } else {
      NotDueForOther(seat, w, st);
    }
  }

  // ---- The calls from outside ----

  /** The proof that is stored for the channel, if any, is one in which the player's signatures are genuine. */
  ghost predicate KnowsGenuine(seat: Seat, secret: Secret, st: Rolling<ParsedState>) {
    seat.meta.reinit in st.reinits ==>
      var e := st.reinits[seat.meta.reinit];
      e.meta == seat.meta && e.reinitState == seat.Initial() && Genuine(seat, secret, e.proof)
  }

  /** Whatever is stored for the channel, from the chain or from others, is a state of its game. */
  lemma KnowledgeOfGame(seat: Seat, secret: Secret, st: Rolling<ParsedState>)
    requires seat.Valid() && LegalIfSet(secret) && KnowsGenuine(seat, secret, st) && Sound(seat.Env(), seat.id, st)
    requires st.reinitId == seat.meta.reinit && st.reinitId in st.reinits
    ensures KnowsGame(seat, secret, st)
  {
    hide ValidProof, OfGame, Genuine, Rules, LegalIfSet;
    var e := st.reinits[st.reinitId];
    assert SoundEntry(seat.Env(), seat.id, st.reinitId, e);
    ProofOfGame(seat, secret, e.proof);
  }

  /** A block with the channel's data never makes the daemon fail a CHECK. */
  lemma OnChainNeverFails(
      seat: Seat, secret: Secret, rnd: string, w: World<ParsedState>, st: Rolling<ParsedState>, proof: StateProof)
    requires seat.Valid() && GoodSecret(secret, rnd) && PlaysShips(seat, secret, rnd, w)
    requires Sound(seat.Env(), seat.id, st)
    requires Truthful(seat.Env(), seat.id, st, OnChain(seat.meta, seat.Initial(), proof))
    requires KnowsGenuine(seat, secret, st) && Genuine(seat, secret, proof)
    ensures Trusted(seat.Env(), w)
    ensures !AfterOnChain(seat.Env(), seat.id, w, seat.Name(), st, OnChain(seat.meta, seat.Initial(), proof)).stuck
  {
    hide ValidProof, OfGame, Genuine, Rules, React, LegalIfSet, PlaysShips, SoundEntry, CheckVersionedProto,
      Trusted, Seat.Valid, LawfulRules;
    PlaysTrusted(seat, secret, rnd, w);
    var u := OnChain(seat.meta, seat.Initial(), proof);
    TrustedIsLawful(seat, w);
    OnChainSound(seat.Env(), seat.id, st, u);
    var t := ApplyOnChain(seat.Env(), seat.id, st, u);
    KnowledgeOfGame(seat, secret, t);
    DaemonReacts(seat, secret, rnd, w, t);
  }

  lemma TrustedIsLawful(seat: Seat, w: World<ParsedState>)
    requires Trusted(seat.Env(), w)
    ensures LawfulRules(seat.Env())
  {
  }

  /** While the channel exists, another player's broadcast fails a CHECK only if its proof aborts. */
  lemma OffChainFailsOnlyByProof(
      seat: Seat, secret: Secret, rnd: string, w: World<ParsedState>, st: Rolling<ParsedState>, u: Update)
    requires seat.Valid() && GoodSecret(secret, rnd) && PlaysShips(seat, secret, rnd, w)
    requires Sound(seat.Env(), seat.id, st) && u.OffChain?
    requires st.reinitId == seat.meta.reinit && st.reinitId in st.reinits
    requires KnowsGenuine(seat, secret, st) && Genuine(seat, secret, u.proof)
    ensures Trusted(seat.Env(), w)
    ensures AfterOffChain(seat.Env(), seat.id, w, seat.Name(), true, st, u).stuck
       <==> OffChainAborts(seat.Env(), seat.id, st, u)
  {
    hide ValidProof, OfGame, Genuine, Rules, React, LegalIfSet, PlaysShips, SoundEntry, CheckVersionedProto,
      OffChainAborts, Trusted, Seat.Valid, LawfulRules, View;
    PlaysTrusted(seat, secret, rnd, w);
    TrustedIsLawful(seat, w);
    OffChainSound(seat.Env(), seat.id, st, u);
    var t := ApplyOffChain(seat.Env(), seat.id, st, u);
    KnowledgeOfGame(seat, secret, t);
    DaemonReacts(seat, secret, rnd, w, t);
  }

  /** What the local player can ask the daemon to play: shots, and revealing a position that is set. */
  predicate IsLocal(secret: Secret, m: Board.Move) {
    (m.Shot? && m.location.Some?) || (secret.IsPositionSet() && m == secret.RevealMove())
  }

  /** A local move that can be signed is played, and leads to a state of the game. */
  lemma LocalMoveIsPlayed(seat: Seat, secret: Secret, w: World<ParsedState>, st: Rolling<ParsedState>, m: Board.Move)
    requires seat.Valid() && LegalIfSet(secret) && Trusted(seat.Env(), w) && Sound(seat.Env(), seat.id, st)
    requires KnowsGame(seat, secret, st) && IsLocal(secret, m) && (seat.patient ==> m.Shot?)
    requires var e, mv := st.reinits[st.reinitId], seat.codec.encodeMove(m);
      seat.At().Parse(UnverifiedProofEndState(e.proof)).Some? && Extendable(seat.At(), w.wallet, e.proof, mv)
    ensures var mv := seat.codec.encodeMove(m);
      && CanPlay(seat.Env(), seat.id, w, st, mv)
      && var t := Moved(seat.Env(), seat.id, w, st, mv);
      && Sound(seat.Env(), seat.id, t) && t.reinitId == st.reinitId && KnowsGame(seat, secret, t)
  {
    hide ValidProof, Board.ApplyMove, BoardRuns.Inv, Committed, CommittedPosition, Moved, CanPlay, Trusted, Extendable,
      BoardRuns.FairSoFar, Fleets.LegalPlacement, Sound;
    var mv, p := seat.codec.encodeMove(m), st.reinits[st.reinitId].latestState;
    if m.PositionReveal? {
      Placement.LegalPositionHasLowHalf(secret.position);
    }
    PlayableMove(seat, w, st, mv);
    StateAfterMove(seat, w, st, mv);
    OnlyUnplayedWithoutPosition(seat, secret, p, m);
    MoveOfGame(seat, secret, p, m);
  }

  /** Without a position nothing that the local player can ask for is accepted. */
  lemma OnlyUnplayedWithoutPosition(seat: Seat, secret: Secret, p: ParsedState, m: Board.Move)
    requires Placed(seat, secret, p) && IsLocal(secret, m) && Board.CanMove(p.state)
    requires Board.ApplyMove(seat.crypto, p.state, m).Some?
    ensures secret.IsPositionSet()
  {
  }

  /** A shot or reveal by the local player is made or refused, and never fails a CHECK. */
  lemma LocalMovesNeverFail(
      seat: Seat, secret: Secret, rnd: string, w: World<ParsedState>, st: Rolling<ParsedState>, m: Board.Move)
    requires seat.Valid() && GoodSecret(secret, rnd) && PlaysShips(seat, secret, rnd, w)
    requires Sound(seat.Env(), seat.id, st) && KnowsGenuine(seat, secret, st)
    requires st.reinitId == seat.meta.reinit && st.reinitId in st.reinits
    requires IsLocal(secret, m) && (seat.patient ==> m.Shot?)
    ensures Trusted(seat.Env(), w)
    ensures !AfterLocalMove(seat.Env(), seat.id, w, seat.Name(), st, seat.codec.encodeMove(m)).stuck
  {
    hide ValidProof, Genuine, LegalIfSet, PlaysShips, OfGame, Moved, CanPlay, React, Trusted, LawfulRules, Extendable,
      IsLocal;
    PlaysTrusted(seat, secret, rnd, w);
    KnowledgeOfGame(seat, secret, st);
    var mv, e := seat.codec.encodeMove(m), st.reinits[st.reinitId];
    assert SoundEntry(seat.Env(), seat.id, st.reinitId, e);
    if Extendable(seat.At(), w.wallet, e.proof, mv) {
      LocalMoveIsPlayed(seat, secret, w, st, m);
      DaemonReacts(seat, secret, rnd, w, Moved(seat.Env(), seat.id, w, st, mv));
    }
  }

  // ---- The failing CHECK of ProcessOffChain ----

  /** The state after the first commitment. */
  function Opened(hash: string): Board.BoardState {
    Board.InitialBoardState().(turn := Some(1), positionHashes := [hash], seedHash0 := Some(hash))
  }

  /** What is known of a channel right after it was joined. */
  function JustJoined(seat: Seat): Rolling<ParsedState> {
    var start: ParsedState := Parsed(2, Board.InitialBoardState());
    var trivial := StateProof(SignedData(seat.Initial(), [], false), []);
    Rolling(map[seat.meta.reinit := ReinitData(seat.meta, seat.Initial(), 1, trivial, start)], seat.meta.reinit)
  }

  /** The first player's signed commitment. */
  function Opening(seat: Seat, hash: string, signature: string): StateProof {
    var m := Board.PositionCommitment(Some(hash), Some(hash), None);
    StateProof(SignedData(seat.Initial(), [], false),
               [StateTransition(seat.codec.encodeMove(m), SignedData(seat.codec.encode(Opened(hash)), [signature], false))])
  }

  lemma JustJoinedIsSound(seat: Seat)
    requires seat.Valid()
    ensures seat.At().Parse(seat.Initial()) == Some(Parsed(2, Board.InitialBoardState()))
    ensures Sound(seat.Env(), seat.id, JustJoined(seat))
  {
    assert seat.codec.decode(seat.Initial()) == Some(Board.InitialBoardState());
  }

  lemma OpeningMove(crypto: Board.Crypto, hash: string)
    requires |hash| == Board.NUM_BYTES
    ensures var s, m := Board.InitialBoardState(), Board.PositionCommitment(Some(hash), Some(hash), None);
      Board.CanMove(s) && Board.ApplyMove(crypto, s, m) == Some(Opened(hash))
  {
    assert [] + [hash] == [hash];
  }

  lemma OpeningIsValid(seat: Seat, hash: string, signature: string)
    requires seat.Valid() && |hash| == Board.NUM_BYTES
    requires var c := seat.At();
      c.env.recover(c.Message(TOPIC, seat.codec.encode(Opened(hash))), signature) == c.meta.participants[0].address
    ensures ValidProof(seat.At(), seat.Initial(), Opening(seat, hash, signature))
    ensures seat.At().Parse(UnverifiedProofEndState(Opening(seat, hash, signature))) == Some(Parsed(2, Opened(hash)))
  {
    var c, proof := seat.At(), Opening(seat, hash, signature);
    var t := proof.transitions[0];
    JustJoinedIsSound(seat);
    var p: ParsedState := Parsed(2, Board.InitialBoardState());
    MoveResult(seat.codec, seat.crypto, seat.chain, seat.id, seat.meta, p, t.move);
    OpeningMove(seat.crypto, hash);
    assert c.env.applyMove(p, t.move) == Some(seat.codec.encode(Opened(hash)));
    assert t.newState.signatures[0] == signature;
    assert 0 in c.Signers(TOPIC, t.newState);
    assert LegalStep(c, seat.Initial(), t);
  }

  /**
   * If the channel vanished from the chain before that commitment arrives off the chain, the second
   * player's automatic answer is due, and the CHECK that the channel exists fails.
   */
  lemma OpeningOffChainFails(
      seat: Seat, secret: Secret, rnd: string, w: World<ParsedState>, hash: string, signature: string)
    requires seat.Valid() && seat.i == 1 && secret.IsPositionSet() && PlaysShips(seat, secret, rnd, w)
    requires |hash| == Board.NUM_BYTES
    requires var c := seat.At();
      c.env.recover(c.Message(TOPIC, seat.codec.encode(Opened(hash))), signature) == c.meta.participants[0].address
    ensures Trusted(seat.Env(), w) && Sound(seat.Env(), seat.id, JustJoined(seat))
    ensures var u := OffChain(seat.meta.reinit, Opening(seat, hash, signature));
      && !OffChainAborts(seat.Env(), seat.id, JustJoined(seat), u)
      && AfterOffChain(seat.Env(), seat.id, w, seat.Name(), false, JustJoined(seat), u)
         == Ran(ApplyOffChain(seat.Env(), seat.id, JustJoined(seat), u), true)
  {
    PlaysTrusted(seat, secret, rnd, w);
    JustJoinedIsSound(seat);
    OpeningIsValid(seat, hash, signature);
    ValidDoesNotAbort(seat.At(), seat.Initial(), Opening(seat, hash, signature));
    OpeningIsTaken(seat, secret, rnd, w, hash, signature);
    hide ValidProof, ProofAborts, Trusted, Sound, ApplyOffChain, View, AutoMoveDueIn;
  }

  /** The commitment is taken over, and then the second player's automatic answer is due. */
  lemma OpeningIsTaken(
      seat: Seat, secret: Secret, rnd: string, w: World<ParsedState>, hash: string, signature: string)
    requires seat.Valid() && seat.i == 1 && secret.IsPositionSet() && PlaysShips(seat, secret, rnd, w)
    requires |hash| == Board.NUM_BYTES
    requires var c, proof := seat.At(), Opening(seat, hash, signature);
      && ValidProof(c, seat.Initial(), proof)
      && c.Parse(UnverifiedProofEndState(proof)) == Some(Parsed(2, Opened(hash)))
    ensures var st := JustJoined(seat);
      var received := ApplyOffChain(seat.Env(), seat.id, st, OffChain(seat.meta.reinit, Opening(seat, hash, signature)));
      View(received) != View(st) && AutoMoveDueIn(seat.Env(), w, seat.Name(), received)
  {
    hide ValidProof;
    var st, proof := JustJoined(seat), Opening(seat, hash, signature);
    var p: ParsedState := Parsed(2, Opened(hash));
    var received := ApplyOffChain(seat.Env(), seat.id, st, OffChain(seat.meta.reinit, proof));
    assert received.reinits[seat.meta.reinit].latestState == p;
    assert w.autoMove(p) == DaemonMove(seat, secret, rnd, p);
  }

  // ---- The failing CHECK of MaybeOnChainMove ----

  function ForeignWinner(seat: Seat, signatures: seq<string>): StateProof {
    StateProof(SignedData(seat.codec.encode(FOREIGN_WINNER), signatures, false), [])
  }

  /**
   * If both players signed a finished state that names a winner who is not a player, its broadcast
   * verifies and nothing is due after it, but the CHECK on the loser fails.
   */
  lemma ForeignWinnerOffChainFails(
      seat: Seat, secret: Secret, rnd: string, w: World<ParsedState>, signatures: seq<string>)
    requires seat.Valid() && PlaysShips(seat, secret, rnd, w) && |signatures| == 2
    requires var c := seat.At();
      forall j :: 0 <= j < 2 ==>
        c.env.recover(c.Message(TOPIC, seat.codec.encode(FOREIGN_WINNER)), signatures[j])
        == c.meta.participants[j].address
    ensures Trusted(seat.Env(), w) && Sound(seat.Env(), seat.id, JustJoined(seat))
    ensures var u := OffChain(seat.meta.reinit, ForeignWinner(seat, signatures));
      var received := ApplyOffChain(seat.Env(), seat.id, JustJoined(seat), u);
      && !OffChainAborts(seat.Env(), seat.id, JustJoined(seat), u)
      && Sound(seat.Env(), seat.id, received)
      && AutoRun(seat.Env(), seat.id, w, seat.Name(), true, received) == Ran(received, false)
      && AfterOffChain(seat.Env(), seat.id, w, seat.Name(), true, JustJoined(seat), u) == Ran(received, true)
  {
    hide GoodProof, FailsCheck, ValidProof, ProofAborts, Sound, PlaysShips, Trusted, Context.Signers;
    var c, proof := seat.At(), ForeignWinner(seat, signatures);
    PlaysTrusted(seat, secret, rnd, w);
    TrustedIsLawful(seat, w);
    JustJoinedIsSound(seat);
    ForeignWinnerIsFresh(seat.codec, seat.meta);
    SignedByBoth(c, seat.Initial(), proof.initial);
    GoodProofIs(c, seat.Initial(), proof);
    var p: ParsedState := Parsed(2, FOREIGN_WINNER);
    assert c.Parse(UnverifiedProofEndState(proof)) == Some(p);
    var u := OffChain(seat.meta.reinit, proof);
    OffChainSound(seat.Env(), seat.id, JustJoined(seat), u);
    assert ApplyOffChain(seat.Env(), seat.id, JustJoined(seat), u).reinits[seat.meta.reinit].latestState == p;
    ReactionFailsIff(seat, secret, rnd, w, p);
  }

  lemma GoodProofIs<P>(c: Context<P>, reinit: BoardState, proof: StateProof)
    requires GoodProof(c, reinit, proof) && !FailsCheck(c, proof)
    ensures CheckVersionedProto(proof) && ValidProof(c, reinit, proof) && !ProofAborts(c, proof)
  {
  }
}
