/**
 * Whole lives of a player's daemon in one reinitialisation of a channel of Battleships: no call ever
 * fails a CHECK, apart from the broadcasts named here, and no loss is declared before it is real.
 */
module DaemonRuns {
  import opened Wrappers
  import opened Channels
  import opened StateProofs
  import opened RollingStates
  import opened ChannelManagers
  import opened ShipsChannels
  import opened ShipsRules
  import opened ShipsDaemon
  import Bits
  import Board
  import BoardRuns
  import Fleets
  import Grids
  import Placement

  /**
   * What the daemon knows, its secret, the states that its wallet signed for the player in this
   * reinitialisation, and whether the channel is on the chain.
   */
  datatype Daemon = Daemon(
    st: Rolling<ParsedState>, secret: Secret, signed: set<BoardState>, onChain: bool)

  datatype Call =
    | Block(proof: StateProof)
    | Gone
    | Broadcast(reinit: string, proof: StateProof)
    | Local(m: Board.Move)
    | Place(position: Bits.Word, salt: string)
    | Trigger

  /** A call, the answers from outside during it, and the random value that may be drawn. */
  datatype Event = Event(call: Call, w: World<ParsedState>, rnd: string)

  // ---- What always holds ----

  /** Every state in the proof that carries the player's signature is one that the daemon signed. */
  ghost predicate Unforged(seat: Seat, signed: set<BoardState>, proof: StateProof) {
    forall k :: 0 <= k < |States(proof)| ==>
      (seat.i in seat.At().Signers(TOPIC, States(proof)[k]) ==> States(proof)[k].data in signed)
  }

  /** The reinitialisation is the current one. */
  predicate Playing(seat: Seat, d: Daemon) {
    d.st.reinitId == seat.meta.reinit && d.st.reinitId in d.st.reinits
  }

  /** A signed state is of the game, keeps to the secret, and is no fresher than the latest one. */
  ghost predicate OldState(seat: Seat, d: Daemon, s: BoardState) {
    EncodesGame(seat, d.secret, s) && seat.Env().turnCount(seat.At().Parse(s).value) <= LatestCount(seat.Env(), d.st)
  }

  ghost predicate Stored(seat: Seat, d: Daemon)
    requires Playing(seat, d)
  {
    var e := d.st.reinits[seat.meta.reinit];
    e.meta == seat.meta && e.reinitState == seat.Initial() && Unforged(seat, d.signed, e.proof)
  }

  ghost predicate DaemonInv(seat: Seat, d: Daemon) {
    && Sound(seat.Env(), seat.id, d.st) && GoodSecret(d.secret, "")
    && if Playing(seat, d) then Stored(seat, d) && forall s :: s in d.signed ==> OldState(seat, d, s)
       else seat.meta.reinit !in d.st.reinits && d.signed == {}
  }

  /** Unforged signatures are genuine, so the daemon knows a state of a game. */
  lemma InvKnowsGame(seat: Seat, d: Daemon)
    requires seat.Valid() && DaemonInv(seat, d) && Playing(seat, d)
    ensures KnowsGenuine(seat, d.secret, d.st) && KnowsGame(seat, d.secret, d.st)
  {
    hide Sound, OfGame, Genuine, EncodesGame, Context.Signers;
    UnforgedIsGenuine(seat, d, d.st.reinits[seat.meta.reinit].proof);
    KnowledgeOfGame(seat, d.secret, d.st);
  }

  lemma UnforgedIsGenuine(seat: Seat, d: Daemon, proof: StateProof)
    requires Unforged(seat, d.signed, proof) && forall s :: s in d.signed ==> OldState(seat, d, s)
    ensures Genuine(seat, d.secret, proof)
  {
    hide EncodesGame, Context.Signers, Genuine;
    GenuineIs(seat, d.secret, proof);
  }

  // ---- Playing a move ----

  /** After a move of the player that the daemon signed. */
  ghost function Played(seat: Seat, w: World<ParsedState>, d: Daemon, mv: BoardMove): Daemon
    requires CanPlay(seat.Env(), seat.id, w, d.st, mv)
  {
    var e := d.st.reinits[d.st.reinitId];
    d.(st := Moved(seat.Env(), seat.id, w, d.st, mv),
       signed := d.signed + {ResultOf(Context(seat.Env(), seat.id, e.meta), w.wallet, e.proof, mv)})
  }

  /** Taking over an unforged proof, or not, keeps what is stored for the reinitialisation unforged. */
  lemma UpdateStaysUnforged(seat: Seat, d: Daemon, r: string, proof: StateProof)
    requires Playing(seat, d) && Stored(seat, d)
    requires r == seat.meta.reinit ==> Unforged(seat, d.signed, proof)
    ensures var t := d.(st := ApplyOffChain(seat.Env(), seat.id, d.st, OffChain(r, proof)));
      Playing(seat, t) && Stored(seat, t)
  {
    hide Unforged, ValidProof, CheckVersionedProto;
  }

  lemma ExtensionStaysUnforged(seat: Seat, signed: set<BoardState>, wallet: Wallet, proof: StateProof, mv: BoardMove)
    requires Unforged(seat, signed, proof)
    requires seat.At().Parse(UnverifiedProofEndState(proof)).Some? && Extendable(seat.At(), wallet, proof, mv)
    ensures Unforged(seat, signed + {ResultOf(seat.At(), wallet, proof, mv)}, Extended(seat.At(), wallet, proof, mv))
  {
    hide Extended, Extendable, Context.Signers, Seat.At, States;
    ExtendedStates(seat.At(), wallet, proof, mv);
  }

  lemma MoreSigned(seat: Seat, signed: set<BoardState>, s: BoardState, proof: StateProof)
    requires Unforged(seat, signed, proof)
    ensures Unforged(seat, signed + {s}, proof)
  {
  }

  /** The state that a played move signs is the one known afterwards. */
  lemma SignedIsLatest(seat: Seat, w: World<ParsedState>, st: Rolling<ParsedState>, mv: BoardMove)
    requires Trusted(seat.Env(), w) && Sound(seat.Env(), seat.id, st) && CanPlay(seat.Env(), seat.id, w, st, mv)
    requires AtSeat(seat, st)
    ensures var t := Moved(seat.Env(), seat.id, w, st, mv);
      && Sound(seat.Env(), seat.id, t) && t.reinitId in t.reinits && t.reinits[t.reinitId].meta == seat.meta
      && LatestCount(seat.Env(), t) > LatestCount(seat.Env(), st)
      && seat.At().Parse(ResultOf(seat.At(), w.wallet, st.reinits[st.reinitId].proof, mv))
         == Some(t.reinits[t.reinitId].latestState)
  {
    hide ValidProof, Trusted, Moved, Extendable, Context.MoveRises, Seat.Env;
    var t, e := Moved(seat.Env(), seat.id, w, st, mv), st.reinits[st.reinitId];
    MovedIs(seat.Env(), seat.id, w, st, mv);
    assert SoundEntry(seat.Env(), seat.id, st.reinitId, e);
    assert SoundEntry(seat.Env(), seat.id, t.reinitId, t.reinits[t.reinitId]);
  }

  /** Another secret is as good for what was signed so far, if nothing but first states was signed. */
  lemma OldStateStays(seat: Seat, d: Daemon, next: Daemon, s: BoardState)
    requires seat.Valid() && OldState(seat, d, s) && GoodSecret(next.secret, "")
    requires LatestCount(seat.Env(), next.st) >= LatestCount(seat.Env(), d.st)
    requires next.secret == d.secret ||
             (next.secret.IsPositionSet()
              && (!d.secret.IsPositionSet() || LatestCount(seat.Env(), d.st) <= 1))
    ensures OldState(seat, next, s)
  {
    hide BoardRuns.Inv, Committed, CommittedPosition, BoardRuns.FairSoFar, LatestCount, Rules, Fleets.LegalPlacement;
    if next.secret != d.secret {
      var p := seat.At().Parse(s).value;
      if d.secret.IsPositionSet() {
        FirstStates(seat, p);
      }
      UnplayedOfGame(seat, d.secret, next.secret, p);
    }
  }

  /** Only the first phase has a turn count of 1. */
  lemma FirstStates(seat: Seat, p: ParsedState)
    requires p.participants == 2 && BoardRuns.Inv(p.state) && seat.Env().turnCount(p) <= 1
    ensures Unplayed(seat.i, p.state)
  {
    hide BoardRuns.Inv, Board.Shots, Board.Revealed;
    BoardRuns.TurnCountBound(p.state);
  }

  lemma FirstCount(seat: Seat, p: ParsedState)
    requires p.participants == 2 && Board.GetPhase(p.state) == Board.FirstCommitment
    ensures seat.Env().turnCount(p) == 1
  {
  }

  /** A played move keeps the invariant, with the secret as it is afterwards. */
  lemma PlayedKeeps(seat: Seat, w: World<ParsedState>, d: Daemon, mv: BoardMove, next: Secret)
    requires seat.Valid() && Trusted(seat.Env(), w) && DaemonInv(seat, d) && Playing(seat, d)
    requires CanPlay(seat.Env(), seat.id, w, d.st, mv) && GoodSecret(next, "")
    requires KnowsGame(seat, next, Moved(seat.Env(), seat.id, w, d.st, mv))
    requires next == d.secret || (next.IsPositionSet() && LatestCount(seat.Env(), d.st) <= 1)
    ensures var t := Played(seat, w, d, mv).(secret := next);
      DaemonInv(seat, t) && Playing(seat, t)
  {
    hide Trusted, Sound, Extendable, Context.MoveRises, OfGame, GoodSecret, LatestCount, Rules, Unforged,
      ApplyOffChain;
    var t, e := Played(seat, w, d, mv).(secret := next), d.st.reinits[d.st.reinitId];
    var result := ResultOf(seat.At(), w.wallet, e.proof, mv);
    var extended := Extended(seat.At(), w.wallet, e.proof, mv);
    SignedIsLatest(seat, w, d.st, mv);
    ExtensionStaysUnforged(seat, d.signed, w.wallet, e.proof, mv);
    MoreSigned(seat, d.signed, result, e.proof);
    UpdateStaysUnforged(seat, d.(signed := t.signed), seat.meta.reinit, extended);
    forall s | s in t.signed ensures OldState(seat, t, s) {
      if s in d.signed {
        OldStateStays(seat, d, t, s);
      } else {
        LatestIsOld(seat, t, result);
      }
    }
  }

  lemma LatestIsOld(seat: Seat, d: Daemon, s: BoardState)
    requires KnowsGame(seat, d.secret, d.st)
    requires seat.At().Parse(s) == Some(d.st.reinits[d.st.reinitId].latestState)
    ensures OldState(seat, d, s)
  {
    hide OfGame;
  }

  // ---- All automatic moves ----

  /** After all automatic moves that are due; each is signed, and may change the secret. */
  ghost function Settled(seat: Seat, rnd: string, w: World<ParsedState>, d: Daemon): Daemon
    requires seat.Valid() && Trusted(seat.Env(), w) && Sound(seat.Env(), seat.id, d.st)
    decreases 0x1_0000_0000 - LatestCount(seat.Env(), d.st)
  {
    if !AutoMoveDueIn(seat.Env(), w, seat.Name(), d.st) then d
    else
      var p := d.st.reinits[d.st.reinitId].latestState;
      var mv := w.autoMove(p).value;
      if !d.onChain || !CanPlay(seat.Env(), seat.id, w, d.st, mv) then d
      else
        MovedIs(seat.Env(), seat.id, w, d.st, mv);
        var next := if MayAsk(d.secret, seat.i, p.state) then AutoMove(seat.crypto, d.secret, seat.i, p.state, rnd).1
                    else d.secret;
        Settled(seat, rnd, w, Played(seat, w, d, mv).(secret := next))
  }

  /** These are the automatic moves of the manager. */
  lemma {:induction false} SettledIsRun(seat: Seat, rnd: string, w: World<ParsedState>, d: Daemon)
    requires seat.Valid() && Trusted(seat.Env(), w) && Sound(seat.Env(), seat.id, d.st)
    ensures Settled(seat, rnd, w, d).onChain == d.onChain
    ensures Settled(seat, rnd, w, d).st == AutoRun(seat.Env(), seat.id, w, seat.Name(), d.onChain, d.st).st
    decreases 0x1_0000_0000 - LatestCount(seat.Env(), d.st)
  {
    hide CanPlay, Sound, Trusted, MayAsk, AutoMove, Moved, Seat.Env, ResultOf, MovedTo, View, NameIs;
    if AutoMoveDueIn(seat.Env(), w, seat.Name(), d.st) {
      var p := d.st.reinits[d.st.reinitId].latestState;
      var mv := w.autoMove(p).value;
      if d.onChain && CanPlay(seat.Env(), seat.id, w, d.st, mv) {
        MovedIs(seat.Env(), seat.id, w, d.st, mv);
        MovedOn(seat.Env(), d.st, Moved(seat.Env(), seat.id, w, d.st, mv), mv);
        var next := if MayAsk(d.secret, seat.i, p.state) then AutoMove(seat.crypto, d.secret, seat.i, p.state, rnd).1
                    else d.secret;
        SettledIsRun(seat, rnd, w, Played(seat, w, d, mv).(secret := next));
      }
    }
  }

  lemma {:induction false} SettledKeeps(seat: Seat, rnd: string, w: World<ParsedState>, d: Daemon)
    requires seat.Valid() && DaemonInv(seat, d) && Playing(seat, d) && d.onChain
    requires |rnd| <= Board.NUM_BYTES && PlaysShips(seat, d.secret, rnd, w)
    ensures Trusted(seat.Env(), w)
    ensures var t := Settled(seat, rnd, w, d);
      DaemonInv(seat, t) && Playing(seat, t) && t.secret.position == d.secret.position
    decreases 0x1_0000_0000 - LatestCount(seat.Env(), d.st)
  {
    hide BoardRuns.Inv, PlaysShips, AutoMoveDueIn, Sound, CanPlay, Moved, Trusted, LegalIfSet, MayAsk, AutoMove,
      OfGame, ResultOf, Stored, OldState;
    PlaysTrusted(seat, d.secret, rnd, w);
    InvKnowsGame(seat, d);
    if AutoMoveDueIn(seat.Env(), w, seat.Name(), d.st) {
      var p := d.st.reinits[d.st.reinitId].latestState;
      DueStep(seat, d.secret, rnd, w, d.st);
      var mv := w.autoMove(p).value;
      var next := AutoMove(seat.crypto, d.secret, seat.i, p.state, rnd).1;
      if next != d.secret {
        FirstCount(seat, p);
      }
      PlayedKeeps(seat, w, d, mv, next);
      if next == d.secret {
        SettledKeeps(seat, rnd, w, Played(seat, w, d, mv).(secret := next));
      }
    }
  }

  /** Afterwards the daemon only waits for what is the player's to choose, or for the opponent. */
  lemma {:induction false} SettledAwaits(seat: Seat, rnd: string, w: World<ParsedState>, d: Daemon)
    requires seat.Valid() && DaemonInv(seat, d) && Playing(seat, d) && d.onChain
    requires |rnd| <= Board.NUM_BYTES && PlaysShips(seat, d.secret, rnd, w)
    ensures Trusted(seat.Env(), w)
    ensures var t := Settled(seat, rnd, w, d);
      && t.st.reinitId in t.st.reinits
      && var s := t.st.reinits[t.st.reinitId].latestState.state;
         s.turn == Some(seat.i) ==> AwaitsPlayer(t.secret, seat.i, s)
    decreases 0x1_0000_0000 - LatestCount(seat.Env(), d.st)
  {
    hide BoardRuns.Inv, PlaysShips, AutoMoveDueIn, Sound, CanPlay, Moved, Trusted, LegalIfSet, MayAsk, AutoMove,
      Committed, CommittedPosition, BoardRuns.FairSoFar, ResultOf, Stored, OldState, AwaitsPlayer;
    PlaysTrusted(seat, d.secret, rnd, w);
    InvKnowsGame(seat, d);
    if AutoMoveDueIn(seat.Env(), w, seat.Name(), d.st) {
      var p := d.st.reinits[d.st.reinitId].latestState;
      DueStep(seat, d.secret, rnd, w, d.st);
      var mv := w.autoMove(p).value;
      var next := AutoMove(seat.crypto, d.secret, seat.i, p.state, rnd).1;
      if next != d.secret {
        FirstCount(seat, p);
      }
      PlayedKeeps(seat, w, d, mv, next);
      if next == d.secret {
        SettledAwaits(seat, rnd, w, Played(seat, w, d, mv).(secret := next));
      }
    } else {
      DueUnlessAwaited(seat, d.secret, rnd, w, d.st);
    }
  }

  // ---- Calls ----

  /** The secret that automatic moves of the call use: SetPosition stores a legal position. */
  ghost function SecretFor(d: Daemon, call: Call): Secret {
    if call.Place? && Fleets.LegalPlacement(Grids.Occupied(call.position))
    then d.secret.(position := call.position, salt := call.salt)
    else d.secret
  }

  /**
   * What is relied on in a call: the daemon's surroundings are those of its game, the chain tells
   * the truth, and nobody else signs for the player. Until the chain shows the reinitialisation,
   * no other call is looked at.
   */
  ghost predicate Admissible(seat: Seat, d: Daemon, ev: Event)
    requires seat.Valid()
  {
    && |ev.rnd| <= Board.NUM_BYTES && PlaysShips(seat, SecretFor(d, ev.call), ev.rnd, ev.w)
    && (ev.call.Block? || Playing(seat, d))
    && match ev.call {
         case Block(proof) =>
           && Truthful(seat.Env(), seat.id, d.st, OnChain(seat.meta, seat.Initial(), proof))
           && Unforged(seat, d.signed, proof)
         case Broadcast(r, proof) => r == seat.meta.reinit ==> Unforged(seat, d.signed, proof)
         case Local(m) => IsLocal(d.secret, m) && (seat.patient ==> m.Shot?)
         case Place(_, salt) => !d.secret.IsPositionSet() && |salt| <= Board.NUM_BYTES
         case Gone => true
         case Trigger => true
       }
  }

  /** What the manager does in the call, and whether a CHECK fails. */
  ghost function Outcome(seat: Seat, d: Daemon, ev: Event): Ran<ParsedState>
    requires seat.Valid() && DaemonInv(seat, d) && Admissible(seat, d, ev)
  {
    PlaysTrusted(seat, SecretFor(d, ev.call), ev.rnd, ev.w);
    var env, name := seat.Env(), seat.Name();
    match ev.call
    case Block(proof) => AfterOnChain(env, seat.id, ev.w, name, d.st, OnChain(seat.meta, seat.Initial(), proof))
    case Gone => Ran(d.st, false)
    case Broadcast(r, proof) => AfterOffChain(env, seat.id, ev.w, name, d.onChain, d.st, OffChain(r, proof))
    case Local(m) =>
      if d.onChain then AfterLocalMove(env, seat.id, ev.w, name, d.st, seat.codec.encodeMove(m)) else Ran(d.st, false)
    case Place(_, _) =>
      if d.onChain && SecretFor(d, ev.call) != d.secret then AfterTrigger(env, seat.id, ev.w, name, d.st)
      else Ran(d.st, false)
    case Trigger => if d.onChain then AfterTrigger(env, seat.id, ev.w, name, d.st) else Ran(d.st, false)
  }

  /** What the call itself changes, before the daemon reacts. */
  ghost function Received(seat: Seat, d: Daemon, ev: Event): Daemon
    requires seat.Valid() && DaemonInv(seat, d) && Admissible(seat, d, ev)
  {
    var env := seat.Env();
    match ev.call
    case Block(proof) =>
      PlaysTrusted(seat, SecretFor(d, ev.call), ev.rnd, ev.w);
      OnChainSound(env, seat.id, d.st, OnChain(seat.meta, seat.Initial(), proof));
      d.(st := ApplyOnChain(env, seat.id, d.st, OnChain(seat.meta, seat.Initial(), proof)), onChain := true)
    case Gone => d.(onChain := false)
    case Broadcast(r, proof) => d.(st := ApplyOffChain(env, seat.id, d.st, OffChain(r, proof)))
    case Local(m) =>
      if d.onChain && CanPlay(env, seat.id, ev.w, d.st, seat.codec.encodeMove(m))
      then Played(seat, ev.w, d, seat.codec.encodeMove(m)) else d
    case Place(_, _) => d.(secret := SecretFor(d, ev.call))
    case Trigger => d
  }

  /** Whether the daemon then looks for automatic moves that it could make. */
  ghost predicate Reacts(seat: Seat, d: Daemon, ev: Event)
    requires seat.Valid() && DaemonInv(seat, d) && Admissible(seat, d, ev)
  {
    match ev.call
    case Block(_) => true
    case Gone => false
    case Broadcast(_, _) => View(Received(seat, d, ev).st) != View(d.st)
    case Local(m) => d.onChain && CanPlay(seat.Env(), seat.id, ev.w, d.st, seat.codec.encodeMove(m))
    case Place(_, _) => d.onChain && SecretFor(d, ev.call) != d.secret
    case Trigger => d.onChain
  }

  lemma BlockKeeps(seat: Seat, d: Daemon, ev: Event)
    requires seat.Valid() && DaemonInv(seat, d) && Admissible(seat, d, ev) && ev.call.Block?
    ensures DaemonInv(seat, Received(seat, d, ev)) && Playing(seat, Received(seat, d, ev))
  {
    hide ValidProof, CheckVersionedProto, Unforged, PlaysShips, LegalIfSet, EncodesGame;
    var u, t := OnChain(seat.meta, seat.Initial(), ev.call.proof), Received(seat, d, ev);
    PlaysTrusted(seat, d.secret, ev.rnd, ev.w);
    OnChainSound(seat.Env(), seat.id, d.st, u);
    if Playing(seat, d) {
      CountsNeverFall(seat.Env(), seat.id, d.st, u, seat.meta.reinit);
      forall s | s in d.signed ensures OldState(seat, t, s) {
        OldStateStays(seat, d, t, s);
      }
    }
  }

  lemma BroadcastKeeps(seat: Seat, d: Daemon, ev: Event)
    requires seat.Valid() && DaemonInv(seat, d) && Admissible(seat, d, ev) && ev.call.Broadcast?
    ensures DaemonInv(seat, Received(seat, d, ev)) && Playing(seat, Received(seat, d, ev))
  {
    hide Sound, Unforged, PlaysShips, LegalIfSet, EncodesGame, ApplyOffChain, Stored;
    var u, t := OffChain(ev.call.reinit, ev.call.proof), Received(seat, d, ev);
    PlaysTrusted(seat, d.secret, ev.rnd, ev.w);
    OffChainSound(seat.Env(), seat.id, d.st, u);
    UpdateStaysUnforged(seat, d, ev.call.reinit, ev.call.proof);
    CountsNeverFall(seat.Env(), seat.id, d.st, u, seat.meta.reinit);
    forall s | s in d.signed ensures OldState(seat, t, s) {
      OldStateStays(seat, d, t, s);
    }
  }

  lemma LocalKeeps(seat: Seat, d: Daemon, ev: Event)
    requires seat.Valid() && DaemonInv(seat, d) && Admissible(seat, d, ev) && ev.call.Local?
    ensures DaemonInv(seat, Received(seat, d, ev)) && Playing(seat, Received(seat, d, ev))
  {
    hide Unforged, PlaysShips, LegalIfSet, OfGame, Stored, OldState, IsLocal, Extendable, Context.MoveRises,
      ResultOf, Sound, LatestCount, EncodesGame, Moved, Trusted, Seat.Env;
    var mv := seat.codec.encodeMove(ev.call.m);
    PlaysTrusted(seat, d.secret, ev.rnd, ev.w);
    InvKnowsGame(seat, d);
    if d.onChain && CanPlay(seat.Env(), seat.id, ev.w, d.st, mv) {
      LocalMoveIsPlayed(seat, d.secret, ev.w, d.st, ev.call.m);
      PlayedKeeps(seat, ev.w, d, mv, d.secret);
    }
  }

  lemma PlaceKeeps(seat: Seat, d: Daemon, ev: Event)
    requires seat.Valid() && DaemonInv(seat, d) && Admissible(seat, d, ev) && ev.call.Place?
    ensures DaemonInv(seat, Received(seat, d, ev)) && Playing(seat, Received(seat, d, ev))
  {
    hide Sound, PlaysShips, EncodesGame, Unforged, Grids.Occupied;
    var t := Received(seat, d, ev);
    if t != d {
      PlacedIsSet(d, ev.call);
      forall s | s in d.signed ensures OldState(seat, t, s) {
        OldStateStays(seat, d, t, s);
      }
    }
  }

  lemma PlacedIsSet(d: Daemon, call: Call)
    requires SecretFor(d, call) != d.secret
    ensures SecretFor(d, call).IsPositionSet()
  {
    Placement.LegalPositionHasLowHalf(call.position);
  }

  /** The call and everything that follows from it. */
  ghost function Next(seat: Seat, d: Daemon, ev: Event): Daemon
    requires seat.Valid() && DaemonInv(seat, d) && Admissible(seat, d, ev)
  {
    PlaysTrusted(seat, SecretFor(d, ev.call), ev.rnd, ev.w);
    ReceivedKeeps(seat, d, ev);
    if Reacts(seat, d, ev) then Settled(seat, ev.rnd, ev.w, Received(seat, d, ev)) else Received(seat, d, ev)
  }

  lemma ReceivedKeeps(seat: Seat, d: Daemon, ev: Event)
    requires seat.Valid() && DaemonInv(seat, d) && Admissible(seat, d, ev)
    ensures DaemonInv(seat, Received(seat, d, ev)) && Playing(seat, Received(seat, d, ev))
    ensures Received(seat, d, ev).secret == SecretFor(d, ev.call)
  {
    hide PlaysShips, Unforged, EncodesGame, Sound, ApplyOnChain, ApplyOffChain, Moved, CanPlay, GoodSecret;
    match ev.call
    case Block(_) => BlockKeeps(seat, d, ev);
    case Gone =>
    case Broadcast(_, _) => BroadcastKeeps(seat, d, ev);
    case Local(_) => LocalKeeps(seat, d, ev);
    case Place(_, _) => PlaceKeeps(seat, d, ev);
    case Trigger =>
  }

  /** A broadcast fails a CHECK if its proof aborts, or makes a move due for a channel that is gone. */
  ghost predicate FailingBroadcast(seat: Seat, d: Daemon, ev: Event)
    requires seat.Valid() && DaemonInv(seat, d) && Admissible(seat, d, ev)
  {
    ev.call.Broadcast? &&
    var u, received := OffChain(ev.call.reinit, ev.call.proof), Received(seat, d, ev).st;
    || OffChainAborts(seat.Env(), seat.id, d.st, u)
    || (!d.onChain && View(received) != View(d.st) && AutoMoveDueIn(seat.Env(), ev.w, seat.Name(), received))
  }

  /** The reaction to a state of the game fails exactly if a move is due for a channel that is gone. */
  lemma ReactionOutcome(seat: Seat, rnd: string, w: World<ParsedState>, d: Daemon)
    requires seat.Valid() && DaemonInv(seat, d) && Playing(seat, d)
    requires |rnd| <= Board.NUM_BYTES && PlaysShips(seat, d.secret, rnd, w)
    ensures Trusted(seat.Env(), w)
    ensures var ran, t := React(seat.Env(), seat.id, w, seat.Name(), d.onChain, d.st), Settled(seat, rnd, w, d);
      && ran.st == t.st && DaemonInv(seat, t) && Playing(seat, t) && t.secret.position == d.secret.position
      && (ran.stuck <==> !d.onChain && AutoMoveDueIn(seat.Env(), w, seat.Name(), d.st))
  {
    hide PlaysShips, Unforged, EncodesGame, Sound, LegalIfSet, Trusted, OfGame, AutoMoveDueIn, CanPlay, Stored, OldState;
    PlaysTrusted(seat, d.secret, rnd, w);
    SettledIsRun(seat, rnd, w, d);
    InvKnowsGame(seat, d);
    if d.onChain {
      SettledKeeps(seat, rnd, w, d);
      DaemonReacts(seat, d.secret, rnd, w, d.st);
    } else {
      KnownReaction(seat, rnd, w, d);
    }
  }

  lemma KnownReaction(seat: Seat, rnd: string, w: World<ParsedState>, d: Daemon)
    requires seat.Valid() && PlaysShips(seat, d.secret, rnd, w) && KnowsGame(seat, d.secret, d.st)
    ensures ReactionTo(w, d.st) != Fails
  {
    hide PlaysShips, BoardRuns.Inv, Committed, CommittedPosition, BoardRuns.FairSoFar;
    ReactionInGame(seat, d.secret, rnd, w, d.st.reinits[d.st.reinitId].latestState);
  }

  /** The manager's contract in terms of what the call changes and what that leads to. */
  ghost predicate OutcomeIs(seat: Seat, d: Daemon, ev: Event)
    requires seat.Valid() && DaemonInv(seat, d) && Admissible(seat, d, ev)
  {
    PlaysTrusted(seat, SecretFor(d, ev.call), ev.rnd, ev.w);
    ReceivedKeeps(seat, d, ev);
    var received := Received(seat, d, ev);
    Outcome(seat, d, ev) ==
    if Reacts(seat, d, ev) then React(seat.Env(), seat.id, ev.w, seat.Name(), received.onChain, received.st)
    else Ran(received.st, false)
  }

  lemma BlockOutcome(seat: Seat, d: Daemon, ev: Event)
    requires seat.Valid() && DaemonInv(seat, d) && Admissible(seat, d, ev) && ev.call.Block?
    ensures OutcomeIs(seat, d, ev)
  {
    hide DaemonInv, PlaysShips, React, Unforged, ApplyOnChain, Trusted, Truthful;
  }

  lemma BroadcastOutcome(seat: Seat, d: Daemon, ev: Event)
    requires seat.Valid() && DaemonInv(seat, d) && Admissible(seat, d, ev) && ev.call.Broadcast?
    ensures var aborts := OffChainAborts(seat.Env(), seat.id, d.st, OffChain(ev.call.reinit, ev.call.proof));
      if aborts then Outcome(seat, d, ev) == Ran(d.st, true) else OutcomeIs(seat, d, ev)
  {
    hide PlaysShips, React, Unforged, ApplyOffChain, Trusted, OffChainAborts, Sound, View, Stored, OldState;
  }

  lemma LocalOutcome(seat: Seat, d: Daemon, ev: Event)
    requires seat.Valid() && DaemonInv(seat, d) && Admissible(seat, d, ev) && ev.call.Local?
    ensures OutcomeIs(seat, d, ev)
  {
    hide Unforged, PlaysShips, LegalIfSet, OfGame, React, Stored, OldState, IsLocal, Context.MoveRises, Extendable,
      LatestCount, Trusted;
    var mv := seat.codec.encodeMove(ev.call.m);
    PlaysTrusted(seat, d.secret, ev.rnd, ev.w);
    InvKnowsGame(seat, d);
    var e := d.st.reinits[d.st.reinitId];
    assert SoundEntry(seat.Env(), seat.id, d.st.reinitId, e);
    EntryParses(seat.Env(), seat.id, d.st.reinitId, e);
    if Extendable(seat.At(), ev.w.wallet, e.proof, mv) {
      LocalMoveIsPlayed(seat, d.secret, ev.w, d.st, ev.call.m);
    }
  }

  /** Where nothing is due, the reaction of a trigger would be none either. */
  lemma TriggerOutcome(seat: Seat, d: Daemon, ev: Event)
    requires seat.Valid() && DaemonInv(seat, d) && Admissible(seat, d, ev) && (ev.call.Place? || ev.call.Trigger?)
    ensures OutcomeIs(seat, d, ev)
  {
    hide Unforged, PlaysShips, OfGame, Stored, OldState, AutoMoveDueIn, Trusted, ReactionTo, Sound;
    PlaysTrusted(seat, SecretFor(d, ev.call), ev.rnd, ev.w);
    var received := Received(seat, d, ev);
    ReceivedKeeps(seat, d, ev);
    InvKnowsGame(seat, received);
    KnownReaction(seat, ev.rnd, ev.w, received);
  }

  /**
   * One call: the invariant holds after it, the manager's contract and the daemon described here
   * agree, and a CHECK fails exactly at a failing broadcast.
   */
  lemma CallKeeps(seat: Seat, d: Daemon, ev: Event)
    requires seat.Valid() && DaemonInv(seat, d) && Admissible(seat, d, ev)
    ensures DaemonInv(seat, Next(seat, d, ev)) && Playing(seat, Next(seat, d, ev))
    ensures Outcome(seat, d, ev).stuck <==> FailingBroadcast(seat, d, ev)
    ensures !Outcome(seat, d, ev).stuck ==> Outcome(seat, d, ev).st == Next(seat, d, ev).st
    ensures Next(seat, d, ev).secret.position == SecretFor(d, ev.call).position
  {
    hide DaemonInv, PlaysShips, Settled, React, Unforged, AutoMoveDueIn, CanPlay, ApplyOffChain, ApplyOnChain,
      View, OffChainAborts, Trusted, Truthful, Outcome;
    ReceivedKeeps(seat, d, ev);
    ReactionOutcome(seat, ev.rnd, ev.w, Received(seat, d, ev));
    match ev.call
    case Block(_) => BlockOutcome(seat, d, ev);
    case Gone => GoneOutcome(seat, d, ev);
    case Broadcast(_, _) => BroadcastOutcome(seat, d, ev);
    case Local(_) => LocalOutcome(seat, d, ev);
    case Place(_, _) => TriggerOutcome(seat, d, ev);
    case Trigger => TriggerOutcome(seat, d, ev);
  }

  lemma GoneOutcome(seat: Seat, d: Daemon, ev: Event)
    requires seat.Valid() && DaemonInv(seat, d) && Admissible(seat, d, ev) && ev.call.Gone?
    ensures OutcomeIs(seat, d, ev)
  {
    hide DaemonInv, PlaysShips;
  }

  // ---- Whole lives ----

  /** Before the chain shows the reinitialisation: nothing is known of it, and nothing signed for it. */
  ghost predicate Starts(seat: Seat, d: Daemon) {
    && Sound(seat.Env(), seat.id, d.st) && GoodSecret(d.secret, "")
    && seat.meta.reinit !in d.st.reinits && d.signed == {}
  }

  /** The calls can follow each other, and none of them fails. */
  ghost predicate IsLife(seat: Seat, start: Daemon, events: seq<Event>)
    requires seat.Valid() && Starts(seat, start)
    decreases |events|, 0
  {
    events != [] ==>
      var m := |events| - 1;
      && IsLife(seat, start, events[..m])
      && Admissible(seat, Life(seat, start, events[..m]), events[m])
      && !Outcome(seat, Life(seat, start, events[..m]), events[m]).stuck
  }

  /** The daemon after the calls; what always holds does so at every time of its life. */
  ghost function Life(seat: Seat, start: Daemon, events: seq<Event>): (d: Daemon)
    requires seat.Valid() && Starts(seat, start) && IsLife(seat, start, events)
    ensures DaemonInv(seat, d) && (events != [] ==> Playing(seat, d))
    ensures start.secret.IsPositionSet() ==> d.secret.position == start.secret.position
    decreases |events|, 1
  {
    if events == [] then start
    else
      var m := |events| - 1;
      CallKeeps(seat, Life(seat, start, events[..m]), events[m]);
      Next(seat, Life(seat, start, events[..m]), events[m])
  }

  /** A new daemon. */
  const NEWBORN := Daemon(Rolling(map[], ""), Secret(0, "", ""), {}, false)

  /** The block of the join, in which the state is still the first one. */
  function Joined(seat: Seat): Call {
    Block(StateProof(SignedData(seat.Initial(), [], false), []))
  }

  lemma JoinIsAdmissible(seat: Seat, ev: Event)
    requires seat.Valid() && |ev.rnd| <= Board.NUM_BYTES && PlaysShips(seat, NEWBORN.secret, ev.rnd, ev.w)
    requires ev.call == Joined(seat)
    ensures Starts(seat, NEWBORN) && Admissible(seat, NEWBORN, ev)
    ensures Received(seat, NEWBORN, ev) == Daemon(JustJoined(seat), NEWBORN.secret, {}, true)
  {
    hide PlaysShips, ValidProof;
    JustJoinedIsSound(seat);
    assert SoundEntry(seat.Env(), seat.id, seat.meta.reinit, JustJoined(seat).reinits[seat.meta.reinit]);
  }

  /** Without a position, a new daemon's life can begin with that block, and it then knows what the chain says. */
  lemma LifeBegins(seat: Seat, ev: Event)
    requires seat.Valid() && |ev.rnd| <= Board.NUM_BYTES && PlaysShips(seat, NEWBORN.secret, ev.rnd, ev.w)
    requires ev.call == Joined(seat)
    ensures Starts(seat, NEWBORN) && IsLife(seat, NEWBORN, [ev])
    ensures Life(seat, NEWBORN, [ev]) == Daemon(JustJoined(seat), NEWBORN.secret, {}, true)
  {
    hide PlaysShips, Admissible, Received, React, Trusted;
    JoinIsAdmissible(seat, ev);
    assert [ev][..0] == [];
    CallKeeps(seat, NEWBORN, ev);
    NothingDueYet(seat, ev);
  }

  lemma NothingDueYet(seat: Seat, ev: Event)
    requires seat.Valid() && PlaysShips(seat, NEWBORN.secret, ev.rnd, ev.w)
    ensures !AutoMoveDueIn(seat.Env(), ev.w, seat.Name(), JustJoined(seat))
  {
    var p: ParsedState := Parsed(2, Board.InitialBoardState());
    assert ev.w.autoMove(p) == DaemonMove(seat, NEWBORN.secret, ev.rnd, p);
  }

  /** After any life, whatever is called next fails a CHECK exactly if it is a failing broadcast. */
  lemma NoCallFails(seat: Seat, start: Daemon, events: seq<Event>, ev: Event)
    requires seat.Valid() && Starts(seat, start) && IsLife(seat, start, events)
    requires Admissible(seat, Life(seat, start, events), ev)
    ensures var d := Life(seat, start, events);
      && (Outcome(seat, d, ev).stuck <==> FailingBroadcast(seat, d, ev))
      && (!FailingBroadcast(seat, d, ev) ==>
            IsLife(seat, start, events + [ev]) && Life(seat, start, events + [ev]).st == Outcome(seat, d, ev).st)
  {
    hide DaemonInv, Admissible, Outcome, Next, FailingBroadcast, Starts;
    CallKeeps(seat, Life(seat, start, events), ev);
    assert (events + [ev])[..|events|] == events;
  }

  /**
   * After any life that ends with a call to which the daemon reacts while the channel exists, it is the
   * opponent who is on turn, or the player who has to set a position or to choose a shot, or nobody.
   */
  lemma OnlyChoicesAreLeft(seat: Seat, start: Daemon, events: seq<Event>)
    requires seat.Valid() && Starts(seat, start) && IsLife(seat, start, events) && events != []
    requires var m := |events| - 1;
      && Admissible(seat, Life(seat, start, events[..m]), events[m])
      && Reacts(seat, Life(seat, start, events[..m]), events[m])
      && Received(seat, Life(seat, start, events[..m]), events[m]).onChain
    ensures var d := Life(seat, start, events);
      && d.st.reinitId in d.st.reinits
      && var s := d.st.reinits[d.st.reinitId].latestState.state;
         s.turn == Some(seat.i) ==> AwaitsPlayer(d.secret, seat.i, s)
  {
    hide DaemonInv, PlaysShips, Settled, Received, Reacts, Starts, AwaitsPlayer, Truthful, Unforged;
    var m := |events| - 1;
    var d, ev := Life(seat, start, events[..m]), events[m];
    ReceivedKeeps(seat, d, ev);
    SettledAwaits(seat, ev.rnd, ev.w, Received(seat, d, ev));
  }

  /** A player whose lost game the daemon knows, and who is patient, has every ship cell hit. */
  lemma LostOnlyWhenSunk(seat: Seat, d: Daemon)
    requires seat.Valid() && seat.patient && DaemonInv(seat, d) && Playing(seat, d)
    requires d.st.reinits[d.st.reinitId].latestState.state.winner == Some(Board.Opponent(seat.i))
    ensures var s := d.st.reinits[d.st.reinitId].latestState.state;
      && d.secret.IsPositionSet() && |s.knownShips| == 2
      && Grids.Occupied(s.knownShips[seat.i].hits) == Grids.Occupied(d.secret.position)
  {
    hide BoardRuns.Inv, Committed, CommittedPosition, Grids.Occupied, Sound, Stored, OldState, BoardRuns.HonestSoFar;
    InvKnowsGame(seat, d);
  }

  /**
   * At every time of its life, what the daemon sends to the chain of its own accord is nothing but
   * the player's own loss, and the loss of a patient player only with every ship cell hit.
   */
  lemma DeclaresOnlyRealLosses(seat: Seat, start: Daemon, events: seq<Event>)
    requires seat.Valid() && Starts(seat, start) && IsLife(seat, start, events) && events != []
    ensures var d, w := Life(seat, start, events), events[|events| - 1].w;
      && Playing(seat, d)
      && var s, mv := d.st.reinits[d.st.reinitId].latestState.state, ReactionTo(w, d.st);
      && (mv.Sends? ==>
            && mv == Sends(seat.codec.lossMove(seat.id, seat.meta.reinit))
            && s.winner == Some(Board.Opponent(seat.i))
            && (seat.patient ==>
                  |s.knownShips| == 2
                  && Grids.Occupied(s.knownShips[seat.i].hits) == Grids.Occupied(d.secret.position)))
  {
    hide DaemonInv, PlaysShips, OfGame, DaemonReaction, Grids.Occupied, Starts, Truthful, Unforged;
    var m := |events| - 1;
    var d, ev := Life(seat, start, events), events[m];
    assert Admissible(seat, Life(seat, start, events[..m]), ev);
    InvKnowsGame(seat, d);
    var p := d.st.reinits[d.st.reinitId].latestState;
    KnownGameInv(seat, d);
    ReactionInGame(seat, SecretFor(Life(seat, start, events[..m]), ev.call), ev.rnd, ev.w, p);
    if seat.patient && p.state.winner == Some(Board.Opponent(seat.i)) {
      LostOnlyWhenSunk(seat, d);
    }
  }

  lemma KnownGameInv(seat: Seat, d: Daemon)
    requires KnowsGame(seat, d.secret, d.st)
    ensures var p := d.st.reinits[d.st.reinitId].latestState; p.participants == 2 && BoardRuns.Inv(p.state)
  {
  }
}
