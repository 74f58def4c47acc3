/**
 * Battleships as the board rules of a channel (ships/board.cpp behind gamechannel/protoboard.tpp):
 * what state proofs and the ledger rely on, and exactly when a move's result does not parse.
 */
module ShipsRules {
  import opened Wrappers
  import opened Channels
  import opened StateProofs
  import opened ChannelGames
  import opened LedgerEffects
  import opened ShipsLedger
  import Board
  import BoardRuns

  /** A state as it is parsed for a channel with one or two participants. */
  datatype Parsed = Parsed(participants: nat, state: Board.BoardState)

  predicate IsParsed(p: Parsed) {
    (p.participants == 1 || p.participants == 2) && Board.IsValid(p.participants, p.state)
  }

  type ParsedState = p: Parsed | IsParsed(p) witness Parsed(1, Board.InitialBoardState())

  /**
   * Encoding and decoding of states and moves, as protocol buffers do it, and the text of the move
   * on the chain that declares the loss of a channel's reinitialisation.
   */
  datatype Codec = Codec(
    encode: Board.BoardState -> string,
    decode: string -> Option<Board.BoardState>,
    encodeMove: Board.Move -> string,
    decodeMove: string -> Option<Board.Move>,
    lossMove: (ChannelId, string) -> string)
  {
    ghost predicate Lawful() {
      (forall s :: decode(encode(s)) == Some(s)) && (forall mv :: decodeMove(encodeMove(mv)) == Some(mv))
    }
  }

  /** Hashing and signing, which the board rules do not look into. */
  datatype Chain = Chain(
    message: (ChannelId, string, string, string) -> string,
    recover: (string, string) -> string,
    nextReinit: (string, Txid) -> string)

  /** Everything that is valid for the number of participants parses. */
  function Parse(codec: Codec, meta: Metadata, s: string): Option<ParsedState> {
    var n, p := |meta.participants|, codec.decode(s);
    if (n == 1 || n == 2) && p.Some? && Board.IsValid(n, p.value) then Some(Parsed(n, p.value)) else None
  }

  function WhoseTurn(p: ParsedState): int {
    match Board.WhoseTurn(p.participants, p.state)
    case None => NO_TURN
    case Some(i) => i
  }

  function TurnCount(p: ParsedState): Unsigned {
    if p.participants == 1 then 0 else Board.TurnCount(p.state) % 0x1_0000_0000
  }

  function Winner(p: ParsedState): Option<Unsigned> {
    match p.state.winner
    case None => None
    case Some(w) => Some(w)
  }

  ghost function ApplyMove(codec: Codec, crypto: Board.Crypto, p: ParsedState, mv: BoardMove): Option<string> {
    if p.participants == 1 || !Board.CanMove(p.state) || codec.decodeMove(mv).None? then None
    else
      match Board.ApplyMove(crypto, p.state, codec.decodeMove(mv).value)
      case None => None
      case Some(t) => Some(codec.encode(t))
  }

  ghost function Rules(codec: Codec, crypto: Board.Crypto, chain: Chain): ShipsLedger.Rules<ParsedState> {
    ShipsLedger.Rules(
      Env((id, meta, s) => Parse(codec, meta, s),
          (p: ParsedState, t) => codec.decode(t) == Some(p.state),
          (p: ParsedState) => WhoseTurn(p),
          (p: ParsedState) => TurnCount(p),
          (p: ParsedState, mv) => ApplyMove(codec, crypto, p, mv),
          chain.message, chain.recover),
      (p: ParsedState) => Winner(p),
      codec.encode(Board.InitialBoardState()),
      chain.nextReinit)
  }

  ghost function ContextFor(
      codec: Codec, crypto: Board.Crypto, chain: Chain, id: ChannelId, meta: Metadata): Context<ParsedState>
  {
    Context(Rules(codec, crypto, chain).env, id, meta)
  }

  // ---- What is relied on ----

  /** The board is lawful on every channel, so the theorems about state proofs apply to it. */
  lemma BoardIsLawful(codec: Codec, crypto: Board.Crypto, chain: Chain, id: ChannelId, meta: Metadata)
    ensures ContextFor(codec, crypto, chain, id, meta).Lawful()
  {
    hide Board.IsValid, ApplyMove, Board.WhoseTurn, TurnCount;
    var c := ContextFor(codec, crypto, chain, id, meta);
    forall s | c.Parse(s).Some?
      ensures c.env.whoseTurn(c.Parse(s).value) == NO_TURN || 0 <= c.env.whoseTurn(c.Parse(s).value) < c.Size()
    {
      TurnOfParticipant(c.Parse(s).value);
    }
    forall s, t | c.Equivalent(s, t) ensures c.Parse(t).Some? && c.Alike(c.Parse(s).value, c.Parse(t).value) {
      assert c.Parse(t) == c.Parse(s);
    }
  }

  lemma TurnOfParticipant(p: ParsedState)
    ensures WhoseTurn(p) == NO_TURN || 0 <= WhoseTurn(p) < p.participants
  {
  }

  /** Battleships meets what the ledger relies on. */
  lemma ShipsRulesAreGood(codec: Codec, crypto: Board.Crypto, chain: Chain)
    requires codec.Lawful() && forall txid :: chain.nextReinit("", txid) != ""
    ensures GoodRules(Rules(codec, crypto, chain))
  {
    hide Context.Lawful;
    var rules := Rules(codec, crypto, chain);
    forall id, meta ensures Context(rules.env, id, meta).Lawful() {
      BoardIsLawful(codec, crypto, chain, id, meta);
    }
    forall id, meta, s ensures WinnerFitsTurn(rules, Context(rules.env, id, meta), s) {
      hide Board.GetPhase;
      if |meta.participants| == 2 && Parse(codec, meta, s).Some? {
        Board.NoTurnIffWinner(Parse(codec, meta, s).value.state);
      }
    }
    forall id, meta ensures BoardStarts(rules, Context(rules.env, id, meta)) {
      BoardRuns.InitialInv();
    }
  }

  // ---- Results of moves ----

  /** The board accepts the encoded move in the parsed state of a two-player channel. */
  ghost predicate IsMove(codec: Codec, crypto: Board.Crypto, p: ParsedState, mv: BoardMove) {
    && p.participants == 2 && Board.CanMove(p.state) && codec.decodeMove(mv).Some?
    && Board.ApplyMove(crypto, p.state, codec.decodeMove(mv).value).Some?
  }

  lemma MoveResult(
      codec: Codec, crypto: Board.Crypto, chain: Chain, id: ChannelId, meta: Metadata, p: ParsedState, mv: BoardMove)
    requires codec.Lawful() && p.participants == |meta.participants|
    ensures var c := ContextFor(codec, crypto, chain, id, meta);
      && (c.env.applyMove(p, mv).Some? <==> IsMove(codec, crypto, p, mv))
      && (IsMove(codec, crypto, p, mv) ==>
            var t := Board.ApplyMove(crypto, p.state, codec.decodeMove(mv).value).value;
            && c.env.applyMove(p, mv).value == codec.encode(t)
            && (c.Parse(codec.encode(t)).Some? <==> Board.IsValidForTwo(t))
            && (Board.IsValidForTwo(t) ==> c.Parse(codec.encode(t)) == Some(Parsed(2, t))))
  {
    hide Board.IsValidForTwo, Board.ApplyMove;
  }

  /** The CHECK that results parse fails exactly at accepted moves into phases with wrongly filled fields. */
  lemma StepAbortsIff(
      codec: Codec, crypto: Board.Crypto, chain: Chain, id: ChannelId, meta: Metadata, p: ParsedState, mv: BoardMove)
    requires codec.Lawful() && p.participants == |meta.participants|
    ensures StepAborts(ContextFor(codec, crypto, chain, id, meta), p, mv) <==>
      IsMove(codec, crypto, p, mv) && !BoardRuns.FieldsFit(crypto, p.state, codec.decodeMove(mv).value)
  {
    hide Board.IsValidForTwo, Board.ApplyMove, BoardRuns.FieldsFit;
    MoveResult(codec, crypto, chain, id, meta, p, mv);
    if IsMove(codec, crypto, p, mv) {
      BoardRuns.ResultValidity(crypto, p.state, codec.decodeMove(mv).value);
      TurnWhileMoving(p);
    }
  }

  lemma TurnWhileMoving(p: ParsedState)
    requires p.participants == 2 && Board.CanMove(p.state)
    ensures WhoseTurn(p) == p.state.turn.value && WhoseTurn(p) != NO_TURN
  {
  }

  /** Exactly when a move raises the turn count that the daemon and the ledger see. */
  lemma MoveRisesIff(
      codec: Codec, crypto: Board.Crypto, chain: Chain, id: ChannelId, meta: Metadata, p: ParsedState, mv: BoardMove)
    requires codec.Lawful() && p.participants == |meta.participants|
    ensures ContextFor(codec, crypto, chain, id, meta).MoveRises(p, mv) <==>
      IsMove(codec, crypto, p, mv) && BoardRuns.FieldsFit(crypto, p.state, codec.decodeMove(mv).value)
      && BoardRuns.RaisesCount(p.state, codec.decodeMove(mv).value)
  {
    hide Board.IsValidForTwo, Board.ApplyMove, BoardRuns.FieldsFit, BoardRuns.RaisesCount, Board.TurnCount;
    MoveResult(codec, crypto, chain, id, meta, p, mv);
    if IsMove(codec, crypto, p, mv) {
      var m := codec.decodeMove(mv).value;
      BoardRuns.ResultValidity(crypto, p.state, m);
      if BoardRuns.FieldsFit(crypto, p.state, m) {
        BoardRuns.ValidMoveRises(crypto, p.state, m);
        CountsFit(crypto, p.state, m);
      }
    }
  }

  /** Neither count is changed by the conversion to unsigned. */
  lemma CountsFit(crypto: Board.Crypto, s: Board.BoardState, m: Board.Move)
    requires Board.CanMove(s) && Board.ApplyMove(crypto, s, m).Some?
    requires Board.IsValidForTwo(Board.ApplyMove(crypto, s, m).value)
    ensures var t := Board.ApplyMove(crypto, s, m).value;
      Board.TurnCount(s) % 0x1_0000_0000 == Board.TurnCount(s) && Board.TurnCount(t) % 0x1_0000_0000 == Board.TurnCount(t)
  {
    hide Board.ApplyMove, Board.TurnCount;
    Board.NoTurnIffWinner(s);
    BoardRuns.ValidTurnCount(s);
    BoardRuns.MoveEndsInPair(crypto, s, m);
    BoardRuns.ValidTurnCount(Board.ApplyMove(crypto, s, m).value);
  }

  /** In states of games, results always parse, and only uncounted reveals do not raise the count. */
  lemma GameMovesRise(
      codec: Codec, crypto: Board.Crypto, chain: Chain, id: ChannelId, meta: Metadata, p: ParsedState, mv: BoardMove)
    requires codec.Lawful() && |meta.participants| == p.participants == 2 && BoardRuns.Inv(p.state)
    requires IsMove(codec, crypto, p, mv)
    ensures BoardRuns.FieldsFit(crypto, p.state, codec.decodeMove(mv).value)
    ensures ContextFor(codec, crypto, chain, id, meta).MoveRises(p, mv) <==>
      !BoardRuns.GoesUncounted(codec.decodeMove(mv).value)
  {
    hide Board.ApplyMove, Context.MoveRises, BoardRuns.KnownConsistent, BoardRuns.FirstRevealPassed, BoardRuns.Unanswered;
    var m := codec.decodeMove(mv).value;
    MoveRisesIff(codec, crypto, chain, id, meta, p, mv);
    BoardRuns.StepInv(crypto, p.state, m);
    BoardRuns.ResultValidity(crypto, p.state, m);
    NoRevealBeforeShots(crypto, p.state, m);
  }

  lemma NoRevealBeforeShots(crypto: Board.Crypto, s: Board.BoardState, m: Board.Move)
    requires BoardRuns.Inv(s) && Board.CanMove(s) && Board.ApplyMove(crypto, s, m).Some?
    ensures BoardRuns.RaisesCount(s, m) <==> !BoardRuns.GoesUncounted(m)
  {
    hide BoardRuns.KnownConsistent, BoardRuns.FirstRevealPassed, BoardRuns.Unanswered;
  }

  /**
   * Resolving a channel by the end of a game gives the win to the player who has won on the board, and
   * the loss to the other one.
   */
  lemma WonGameIsCounted(
      codec: Codec, crypto: Board.Crypto, chain: Chain, st: State, height: nat, mv: Move, id: ChannelId,
      proof: StateProof, s: Board.BoardState)
    requires GoodRules(Rules(codec, crypto, chain)) && height > 0 && InBlock(Rules(codec, crypto, chain), st, height)
    requires mv.action == FileResolution(id, proof)
    requires id in st.channels && |st.channels[id].meta.participants| == 2
    requires Fresher(Rules(codec, crypto, chain), st, id, proof)
    requires codec.decode(UnverifiedProofEndState(proof)) == Some(s) && Board.IsValidForTwo(s)
    ensures s.winner == Some(0) || s.winner == Some(1) ==>
      var ps, w := st.channels[id].meta.participants, s.winner.value;
      DecidedFor(st, ApplyAction(Rules(codec, crypto, chain), st, height, mv), id, ps[w].name, ps[1 - w].name)
  {
    hide GoodRules, InBlock, Fresher, DecidedFor, ApplyAction, MoveFailsCheck;
    ResolutionEffect(Rules(codec, crypto, chain), st, height, mv, id, proof);
  }

  // ---- CHECKs that a filed proof can fail ----

  /** A proof whose one move is accepted by the board but enters a phase with wrongly filled fields. */
  function BadProof(codec: Codec, crypto: Board.Crypto, seed: string): StateProof {
    var s := Board.BoardState(Some(0), ["", ""], Some(crypto.sha(seed)), None, [], None, [0], None);
    StateProof(SignedData(codec.encode(s), [], false),
               [StateTransition(codec.encodeMove(Board.SeedReveal(Some(seed))), SignedData("", [], false))])
  }

  /** In every two-player channel, filing that proof fails the CHECK, before any signature is looked at. */
  lemma BadProofFailsCheck(
      codec: Codec, crypto: Board.Crypto, chain: Chain, st: State, height: nat, mv: Move, id: ChannelId, seed: string)
    requires codec.Lawful() && |seed| <= Board.NUM_BYTES && |crypto.sha(seed)| == Board.NUM_BYTES
    requires InBlock(Rules(codec, crypto, chain), st, height)
    requires id in st.channels && |st.channels[id].meta.participants| == 2
    requires mv.action == FileDispute(id, BadProof(codec, crypto, seed))
    ensures MoveFailsCheck(Rules(codec, crypto, chain), st, height, mv)
  {
    hide InBlock, Board.ApplyMove, BoardRuns.FieldsFit;
    var meta := st.channels[id].meta;
    var c, proof := ContextFor(codec, crypto, chain, id, meta), BadProof(codec, crypto, seed);
    var s := codec.decode(proof.initial.data).value;
    BoardRuns.ValidStateWithInvalidSuccessor(crypto, seed);
    BoardRuns.ResultValidity(crypto, s, Board.SeedReveal(Some(seed)));
    assert c.Parse(proof.initial.data) == Some(Parsed(2, s));
    StepAbortsIff(codec, crypto, chain, id, meta, Parsed(2, s), proof.transitions[0].move);
    assert proof.transitions[..0] == [];
    assert AbortsAt(c, proof, 0);
    assert FailsCheck(c, proof);
  }

  /** A finished state, without a game behind it, that names a winner who is not a player. */
  const FOREIGN_WINNER := Board.BoardState(None, [], None, None, [], None, [], Some(7))

  /** A proof from a single state that both players signed is valid for every reinitialisation. */
  lemma SignedByBoth<P>(c: Context<P>, reinit: BoardState, data: SignedData)
    requires c.Parse(data.data).Some? && c.Size() == 2 == |data.signatures| && !data.foreign
    requires forall i :: 0 <= i < 2 ==>
      c.env.recover(c.Message(TOPIC, data.data), data.signatures[i]) == c.meta.participants[i].address
    ensures GoodProof(c, reinit, StateProof(data, [])) && !FailsCheck(c, StateProof(data, []))
  {
    var proof := StateProof(data, []);
    assert States(proof) == [data];
    forall i: nat | i < c.Size() ensures i in SignersIn(c, States(proof)) {
      assert c.env.recover(c.Message(TOPIC, data.data), data.signatures[i]) == c.meta.participants[i].address;
      assert i in c.Signers(TOPIC, States(proof)[0]);
    }
    ValidDoesNotAbort(c, reinit, proof);
  }

  lemma ForeignWinnerIsFresh(codec: Codec, meta: Metadata)
    requires codec.Lawful() && |meta.participants| == 2
    ensures var p, q := Parse(codec, meta, codec.encode(FOREIGN_WINNER)),
                        Parse(codec, meta, codec.encode(Board.InitialBoardState()));
      && p.Some? && q.Some? && TurnCount(p.value) > TurnCount(q.value) && Winner(p.value) == Some(7)
  {
  }

  /** If both players sign it, resolving a new channel by it fails the CHECK on the winner. */
  lemma ForeignWinnerFailsCheck(
      codec: Codec, crypto: Board.Crypto, chain: Chain, st: State, height: nat, mv: Move, id: ChannelId,
      signatures: seq<string>)
    requires codec.Lawful() && InBlock(Rules(codec, crypto, chain), st, height)
    requires id in st.channels && |st.channels[id].meta.participants| == 2
    requires Load(st.channels[id]).LatestState() == codec.encode(Board.InitialBoardState())
    requires |signatures| == 2
    requires var c := ContextFor(codec, crypto, chain, id, st.channels[id].meta);
      forall i :: 0 <= i < 2 ==>
        c.env.recover(c.Message(TOPIC, codec.encode(FOREIGN_WINNER)), signatures[i]) == c.meta.participants[i].address
    requires mv.action == FileResolution(id, StateProof(SignedData(codec.encode(FOREIGN_WINNER), signatures, false), []))
    ensures MoveFailsCheck(Rules(codec, crypto, chain), st, height, mv)
  {
    hide InPlay, Waiting, GoodProof, FailsCheck, Context.Signers, Parse, TurnCount, Winner, Load, Store;
    var rules, meta := Rules(codec, crypto, chain), st.channels[id].meta;
    TwoPlayersInPlay(rules, st, id, height - DISPUTE_BLOCKS, height - CHANNEL_TIMEOUT_BLOCKS, height);
    hide InBlock;
    var c, proof := ContextFor(codec, crypto, chain, id, meta), mv.action.proof;
    ForeignWinnerIsFresh(codec, meta);
    SignedByBoth(c, Load(st.channels[id]).reinit, proof.initial);
    assert Filing(rules, st, id, proof, height, false).Some?;
  }
}
