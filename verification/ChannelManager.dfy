/** The channel daemon's central object (gamechannel/channelmanager.cpp). */
module ChannelManagers {
  import opened Wrappers
  import opened Channels
  import opened StateProofs
  import opened RollingStates
  import opened ChannelGames

  type Txid = string

  datatype DisputeData = DisputeData(height: nat, turn: int, count: Unsigned, pendingResolution: Option<Txid>)

  /** What leaves the daemon: broadcasts of states, and resolutions, disputes and moves sent to the chain. */
  datatype Message =
    | NewState(reinit: string, proof: StateProof)
    | Resolution(proof: StateProof)
    | Dispute(proof: StateProof)
    | GameMove(mv: string)

  /** The game's own reaction on the chain to a new state: a move to send, or a CHECK that fails. */
  datatype Reaction = NoReaction | Sends(mv: string) | Fails

  /**
   * The answers the daemon gets from outside during one call: the transaction id of a sent
   * resolution or dispute (none if sending fails), which transactions are still pending, the
   * game's automatic moves and its moves on the chain, and the wallet.
   */
  datatype World<!P> = World(
    sendResolution: StateProof -> Option<Txid>,
    sendDispute: StateProof -> Option<Txid>,
    isPending: Txid -> bool,
    autoMove: P -> Option<BoardMove>,
    onChainMove: P -> Reaction,
    wallet: Wallet)

  predicate NoResolution(sent: seq<Message>) {
    forall k :: 0 <= k < |sent| ==> !sent[k].Resolution?
  }

  /** Of the transaction noted before, exactly a pending one is still noted. */
  predicate OnlyPendingNoted<P>(w: World<P>, was: Option<Txid>, now: Option<Txid>) {
    && (now.Some? ==> now == was && w.isPending(now.value))
    && (was.Some? && w.isPending(was.value) ==> now == was)
  }

  predicate NameIs(meta: Metadata, turn: int, name: string) {
    0 <= turn < |meta.participants| && meta.participants[turn].name == name
  }

  /** The board rules are lawful, and what the wallet signs is recognised. */
  ghost predicate Trusted<P(!new)>(env: Env<P>, w: World<P>) {
    LawfulRules(env) && HonestWallet(env, w.wallet)
  }

  ghost predicate SendsSucceed<P>(w: World<P>) {
    forall proof: StateProof :: w.sendResolution(proof).Some?
  }

  /** Our player is on turn in the latest state, and the game has an automatic move for it. */
  predicate AutoMoveDueIn<P>(env: Env<P>, w: World<P>, name: string, st: Rolling<P>) {
    && st.reinitId in st.reinits
    && NameIs(st.reinits[st.reinitId].meta, env.whoseTurn(st.reinits[st.reinitId].latestState), name)
    && w.autoMove(st.reinits[st.reinitId].latestState).Some?
  }

  // ---- Moves of our own ----

  /** The move can be made, signed and taken over: its result parses and has a higher turn count. */
  ghost predicate CanPlay<P>(env: Env<P>, id: ChannelId, w: World<P>, st: Rolling<P>, mv: BoardMove) {
    && st.reinitId in st.reinits
    && var e := st.reinits[st.reinitId];
       var c := Context(env, id, e.meta);
    && c.Parse(UnverifiedProofEndState(e.proof)).Some?
    && Extendable(c, w.wallet, e.proof, mv) && c.MoveRises(c.Parse(UnverifiedProofEndState(e.proof)).value, mv)
  }

  /** What is known after the move. */
  ghost function Moved<P>(env: Env<P>, id: ChannelId, w: World<P>, st: Rolling<P>, mv: BoardMove): Rolling<P>
    requires CanPlay(env, id, w, st, mv)
  {
    var e := st.reinits[st.reinitId];
    ApplyOffChain(env, id, st, OffChain(st.reinitId, Extended(Context(env, id, e.meta), w.wallet, e.proof, mv)))
  }

  /** A proof extended by a rising move is valid again, and fresher than the one it extends. */
  lemma ExtensionIsFresher<P(!new)>(
      env: Env<P>, id: ChannelId, wallet: Wallet, r: string, e: ReinitData<P>, mv: BoardMove)
    requires LawfulRules(env) && HonestWallet(env, wallet) && SoundEntry(env, id, r, e)
    requires Extendable(Context(env, id, e.meta), wallet, e.proof, mv)
    requires Context(env, id, e.meta).MoveRises(e.latestState, mv)
    ensures var c := Context(env, id, e.meta);
      var newProof := Extended(c, wallet, e.proof, mv);
      && CheckVersionedProto(newProof) && ValidProof(c, e.reinitState, newProof)
      && c.Parse(UnverifiedProofEndState(newProof)).Some?
      && CountOf(c, newProof) > env.turnCount(e.latestState)
      && env.applyMove(e.latestState, mv) == Some(UnverifiedProofEndState(newProof))
  {
    hide ValidProof, Context.Lawful, MinimalStart, HonestWallet, FullChain, ProofFrom, Extended;
    var c := Context(env, id, e.meta);
    assert c.Lawful();
    var trans := NewTransition(c, wallet, e.proof, mv);
    var begin := ExtendedIsMinimal(c, wallet, e.proof, mv);
    StartInChain(c, FullChain(e.proof, trans), begin);
    ExtendedProofIsValid(c, wallet, e.reinitState, e.proof, mv, begin);
    ExtendedProofIsVersioned(e.proof, trans, begin);
  }

  /** Whatever its start, the extended proof ends in the result of the move. */
  lemma ExtensionEnds<P>(c: Context<P>, wallet: Wallet, proof: StateProof, mv: BoardMove)
    requires c.Parse(UnverifiedProofEndState(proof)).Some? && Extendable(c, wallet, proof, mv)
    ensures UnverifiedProofEndState(Extended(c, wallet, proof, mv)) == ResultOf(c, wallet, proof, mv)
    ensures c.env.applyMove(c.Parse(UnverifiedProofEndState(proof)).value, mv) == Some(ResultOf(c, wallet, proof, mv))
  {
    hide MinimalStart, FullChain, ProofFrom, Extended;
    var trans := NewTransition(c, wallet, proof, mv);
    var begin := ExtendedIsMinimal(c, wallet, proof, mv);
    StartInChain(c, FullChain(proof, trans), begin);
    ChainStates(proof, trans, begin);
  }

  /** A proof whose end state does not parse or is not fresher changes nothing. */
  lemma OnlyFresherIsTaken<P>(env: Env<P>, id: ChannelId, st: Rolling<P>, proof: StateProof)
    requires Sound(env, id, st) && st.reinits != map[]
    requires var e := st.reinits[st.reinitId];
      var p := Context(env, id, e.meta).Parse(UnverifiedProofEndState(proof));
      p.Some? ==> env.turnCount(p.value) <= env.turnCount(e.latestState)
    ensures ApplyOffChain(env, id, st, OffChain(st.reinitId, proof)) == st
  {
    hide ValidProof, CheckVersionedProto, SoundEntry, UnverifiedProofEndState;
    assert st.reinits[st.reinitId := st.reinits[st.reinitId]] == st.reinits;
  }

  /** The current reinitialisation's state is replaced by the result of the move. */
  ghost predicate MovedTo<P>(env: Env<P>, before: Rolling<P>, after: Rolling<P>, mv: BoardMove) {
    && before.reinitId in before.reinits && after.reinitId == before.reinitId
    && after.reinits.Keys == before.reinits.Keys
    && after.reinits[after.reinitId].meta == before.reinits[before.reinitId].meta
    && (forall r :: r in before.reinits && r != before.reinitId ==> after.reinits[r] == before.reinits[r])
    && env.turnCount(after.reinits[after.reinitId].latestState)
       > env.turnCount(before.reinits[before.reinitId].latestState)
    && env.applyMove(before.reinits[before.reinitId].latestState, mv)
       == Some(UnverifiedProofEndState(after.reinits[after.reinitId].proof))
  }

  lemma MovedOn<P>(env: Env<P>, st: Rolling<P>, t: Rolling<P>, mv: BoardMove)
    requires MovedTo(env, st, t, mv)
    ensures t.reinitId == st.reinitId && st.reinitId in st.reinits && t.reinitId in t.reinits
    ensures t.reinits[t.reinitId].meta == st.reinits[st.reinitId].meta && t.reinits.Keys == st.reinits.Keys
    ensures env.turnCount(t.reinits[t.reinitId].latestState) > env.turnCount(st.reinits[st.reinitId].latestState)
  {
  }

  lemma ViewOfFresher<P>(env: Env<P>, st: Rolling<P>, t: Rolling<P>)
    requires st.reinitId in st.reinits && t.reinitId in t.reinits
    requires env.turnCount(t.reinits[t.reinitId].latestState) > env.turnCount(st.reinits[st.reinitId].latestState)
    ensures View(t) != View(st)
  {
  }

  /** A valid, fresher proof for the current reinitialisation is always taken over. */
  lemma FresherIsTaken<P(!new)>(env: Env<P>, id: ChannelId, st: Rolling<P>, proof: StateProof, mv: BoardMove)
    requires Sound(env, id, st) && st.reinits != map[] && CheckVersionedProto(proof)
    requires var e := st.reinits[st.reinitId];
      var c := Context(env, id, e.meta);
      && ValidProof(c, e.reinitState, proof) && c.Parse(UnverifiedProofEndState(proof)).Some?
      && CountOf(c, proof) > env.turnCount(e.latestState)
      && env.applyMove(e.latestState, mv) == Some(UnverifiedProofEndState(proof))
    ensures var t := ApplyOffChain(env, id, st, OffChain(st.reinitId, proof));
      MovedTo(env, st, t, mv) && View(t) != View(st)
  {
    hide ValidProof, CheckVersionedProto, SoundEntry, UnverifiedProofEndState;
  }

  /** Making a move that can be made leads to its result, keeps what is stored sound, and shows. */
  lemma MovedIs<P(!new)>(env: Env<P>, id: ChannelId, w: World<P>, st: Rolling<P>, mv: BoardMove)
    requires Trusted(env, w) && Sound(env, id, st) && CanPlay(env, id, w, st, mv)
    ensures Sound(env, id, Moved(env, id, w, st, mv))
    ensures MovedTo(env, st, Moved(env, id, w, st, mv), mv)
    ensures View(Moved(env, id, w, st, mv)) != View(st)
    ensures var e := st.reinits[st.reinitId];
      !OffChainAborts(env, id, st,
        OffChain(st.reinitId, Extended(Context(env, id, e.meta), w.wallet, e.proof, mv)))
  {
    hide ValidProof, LawfulRules, HonestWallet, SoundEntry, CheckVersionedProto, Extended, Extendable, ProofAborts,
      Context.MoveRises, UnverifiedProofEndState, ApplyOffChain, MovedTo, View, CountOf;
    var e := st.reinits[st.reinitId];
    assert SoundEntry(env, id, st.reinitId, e);
    EntryParses(env, id, st.reinitId, e);
    var c := Context(env, id, e.meta);
    var newProof := Extended(c, w.wallet, e.proof, mv);
    ExtensionIsFresher(env, id, w.wallet, st.reinitId, e, mv);
    FresherIsTaken(env, id, st, newProof, mv);
    OffChainSound(env, id, st, OffChain(st.reinitId, newProof));
    ValidDoesNotAbort(c, e.reinitState, newProof);
  }

  // ---- Automatic moves ----

  datatype Ran<P> = Ran(st: Rolling<P>, stuck: bool)

  function LatestCount<P>(env: Env<P>, st: Rolling<P>): Unsigned {
    if st.reinitId in st.reinits then env.turnCount(st.reinits[st.reinitId].latestState) else 0
  }

  /**
   * All automatic moves that are due, one after the other. They get stuck at a due one that cannot
   * be made, or at any if the channel is not on the chain: there the source fails a CHECK.
   */
  ghost function AutoRun<P(!new)>(
      env: Env<P>, id: ChannelId, w: World<P>, name: string, onChain: bool, st: Rolling<P>): Ran<P>
    requires Trusted(env, w) && Sound(env, id, st)
    decreases 0x1_0000_0000 - LatestCount(env, st)
  {
    if !AutoMoveDueIn(env, w, name, st) then Ran(st, false)
    else
      var mv := w.autoMove(st.reinits[st.reinitId].latestState).value;
      if !onChain || !CanPlay(env, id, w, st, mv) then Ran(st, true)
      else
        MovedIs(env, id, w, st, mv);
        AutoRun(env, id, w, name, onChain, Moved(env, id, w, st, mv))
  }

  /** One automatic move of our player. */
  ghost predicate AutoStep<P>(env: Env<P>, w: World<P>, name: string, st: Rolling<P>, t: Rolling<P>) {
    AutoMoveDueIn(env, w, name, st) && MovedTo(env, st, t, w.autoMove(st.reinits[st.reinitId].latestState).value)
  }

  ghost predicate AutoPath<P>(env: Env<P>, w: World<P>, name: string, sts: seq<Rolling<P>>) {
    sts != [] && forall k :: 0 < k < |sts| ==> AutoStep(env, w, name, sts[k - 1], sts[k])
  }

  /** The run is a path of automatic moves; it ends where none is due, or where a due one fails. */
  lemma {:induction false} AutoRunIsPath<P(!new)>(
      env: Env<P>, id: ChannelId, w: World<P>, name: string, onChain: bool, st: Rolling<P>)
      returns (sts: seq<Rolling<P>>)
    requires Trusted(env, w) && Sound(env, id, st)
    ensures var ran := AutoRun(env, id, w, name, onChain, st);
      && AutoPath(env, w, name, sts) && sts[0] == st && sts[|sts| - 1] == ran.st
      && (ran.stuck <==> AutoMoveDueIn(env, w, name, ran.st))
      && (ran.stuck ==>
            !onChain || !CanPlay(env, id, w, ran.st, w.autoMove(ran.st.reinits[ran.st.reinitId].latestState).value))
    decreases 0x1_0000_0000 - LatestCount(env, st)
  {
    hide Sound, CanPlay, Moved, MovedTo, LawfulRules, HonestWallet, NameIs;
    if AutoMoveDueIn(env, w, name, st) {
      var mv := w.autoMove(st.reinits[st.reinitId].latestState).value;
      if onChain && CanPlay(env, id, w, st, mv) {
        MovedIs(env, id, w, st, mv);
        MovedOn(env, st, Moved(env, id, w, st, mv), mv);
        var rest := AutoRunIsPath(env, id, w, name, onChain, Moved(env, id, w, st, mv));
        assert AutoStep(env, w, name, st, rest[0]);
        return [st] + rest;
      }
    }
    return [st];
  }

  /** The run keeps what is stored sound, the channel's metadata, and never gets less fresh. */
  lemma {:induction false} AutoRunKeeps<P(!new)>(
      env: Env<P>, id: ChannelId, w: World<P>, name: string, onChain: bool, st: Rolling<P>)
    requires Trusted(env, w) && Sound(env, id, st)
    ensures var t := AutoRun(env, id, w, name, onChain, st).st;
      && Sound(env, id, t) && t.reinitId == st.reinitId && t.reinits.Keys == st.reinits.Keys
      && (st.reinitId in st.reinits ==> t.reinits[t.reinitId].meta == st.reinits[st.reinitId].meta)
      && LatestCount(env, t) >= LatestCount(env, st)
      && (t != st ==> LatestCount(env, t) > LatestCount(env, st) && View(t) != View(st))
    decreases 0x1_0000_0000 - LatestCount(env, st)
  {
    hide Sound, CanPlay, Moved, MovedTo, LawfulRules, HonestWallet, NameIs, View;
    if AutoMoveDueIn(env, w, name, st) {
      var mv := w.autoMove(st.reinits[st.reinitId].latestState).value;
      if onChain && CanPlay(env, id, w, st, mv) {
        MovedIs(env, id, w, st, mv);
        MovedOn(env, st, Moved(env, id, w, st, mv), mv);
        AutoRunKeeps(env, id, w, name, onChain, Moved(env, id, w, st, mv));
        var t := AutoRun(env, id, w, name, onChain, st).st;
        ViewOfFresher(env, st, t);
      }
    }
  }

  /** After a run that does not get stuck, no automatic move is due. */
  lemma AutoRunSettles<P(!new)>(env: Env<P>, id: ChannelId, w: World<P>, name: string, onChain: bool, st: Rolling<P>)
    requires Trusted(env, w) && Sound(env, id, st)
    ensures var ran := AutoRun(env, id, w, name, onChain, st);
      && Sound(env, id, ran.st)
      && (!ran.stuck ==> AutoRun(env, id, w, name, onChain, ran.st) == ran)
  {
    hide Trusted, Sound, AutoMoveDueIn, CanPlay;
    AutoRunKeeps(env, id, w, name, onChain, st);
    var sts := AutoRunIsPath(env, id, w, name, onChain, st);
  }

  // ---- The calls from outside ----

  /** The game's own reaction to the latest state. */
  function ReactionTo<P>(w: World<P>, st: Rolling<P>): Reaction {
    if st.reinitId in st.reinits then w.onChainMove(st.reinits[st.reinitId].latestState) else NoReaction
  }

  /** What a new state leads to: the automatic moves, and then the game's own reaction, which can fail a CHECK. */
  ghost function React<P(!new)>(
      env: Env<P>, id: ChannelId, w: World<P>, name: string, onChain: bool, st: Rolling<P>): Ran<P>
    requires Trusted(env, w) && Sound(env, id, st)
  {
    var ran := AutoRun(env, id, w, name, onChain, st);
    Ran(ran.st, ran.stuck || ReactionTo(w, ran.st) == Fails)
  }

  /** What is known after another player's broadcast, and whether a CHECK fails on the way. */
  ghost function AfterOffChain<P(!new)>(
      env: Env<P>, id: ChannelId, w: World<P>, name: string, onChain: bool, st: Rolling<P>, u: Update): Ran<P>
    requires Trusted(env, w) && Sound(env, id, st) && u.OffChain?
  {
    OffChainSound(env, id, st, u);
    var received := ApplyOffChain(env, id, st, u);
    if OffChainAborts(env, id, st, u) then Ran(st, true)
    else if View(received) == View(st) then Ran(received, false)
    else React(env, id, w, name, onChain, received)
  }

  /** What is known after a block with data for our channel. */
  ghost function AfterOnChain<P(!new)>(
      env: Env<P>, id: ChannelId, w: World<P>, name: string, st: Rolling<P>, u: Update): Ran<P>
    requires Trusted(env, w) && Sound(env, id, st) && u.OnChain? && Truthful(env, id, st, u)
  {
    OnChainSound(env, id, st, u);
    React(env, id, w, name, true, ApplyOnChain(env, id, st, u))
  }

  /** What is known after a move by the local player, which is ignored if it cannot be made or signed. */
  ghost function AfterLocalMove<P(!new)>(
      env: Env<P>, id: ChannelId, w: World<P>, name: string, st: Rolling<P>, mv: BoardMove): Ran<P>
    requires Trusted(env, w) && Sound(env, id, st) && st.reinits != map[]
  {
    var e := st.reinits[st.reinitId];
    assert SoundEntry(env, id, st.reinitId, e);
    if !Extendable(Context(env, id, e.meta), w.wallet, e.proof, mv) then Ran(st, false)
    else if !CanPlay(env, id, w, st, mv) then Ran(st, true)
    else
      MovedIs(env, id, w, st, mv);
      React(env, id, w, name, true, Moved(env, id, w, st, mv))
  }

  /** What is known after a trigger from outside, which makes the game react only if a move is due. */
  ghost function AfterTrigger<P(!new)>(env: Env<P>, id: ChannelId, w: World<P>, name: string, st: Rolling<P>): Ran<P>
    requires Trusted(env, w) && Sound(env, id, st)
  {
    if AutoMoveDueIn(env, w, name, st) then React(env, id, w, name, true, st) else Ran(st, false)
  }

  lemma EntryParses<P>(env: Env<P>, id: ChannelId, r: string, e: ReinitData<P>)
    requires SoundEntry(env, id, r, e)
    ensures Context(env, id, e.meta).Parse(UnverifiedProofEndState(e.proof)) == Some(e.latestState)
  {
  }

  lemma StartInChain<P>(c: Context<P>, chain: seq<StateTransition>, begin: nat)
    requires MinimalStart(c, chain, begin)
    ensures begin < |chain|
  {
  }

  datatype Outcome = Refused | Applied | Failed

  class ChannelManager<P(!new)> {
    const env: Env<P>
    const channelId: ChannelId
    const playerName: string
    const boardStates: RollingState<P>

    var stateVersion: nat
    var stopped: bool
    var existsOnChain: bool
    var blockHash: string
    var onChainHeight: nat
    var dispute: Option<DisputeData>
    var pendingPutStateOnChain: Option<Txid>
    var pendingDispute: Option<Txid>
    /** Everything sent so far. */
    var outbox: seq<Message>

    constructor (env: Env<P>, channelId: ChannelId, playerName: string)
      ensures this.env == env && this.channelId == channelId && this.playerName == playerName
      ensures Valid() && fresh(boardStates) && !existsOnChain && !stopped && outbox == []
      ensures DisputeAnswered()
    {
      this.env, this.channelId, this.playerName := env, channelId, playerName;
      boardStates := new RollingState(env, channelId);
      stateVersion, stopped, existsOnChain, blockHash, onChainHeight := 1, false, false, "", 0;
      dispute, pendingPutStateOnChain, pendingDispute, outbox := None, None, None, [];
    }

    ghost predicate Valid()
      reads this, boardStates
    {
      && boardStates.env == env && boardStates.channelId == channelId && boardStates.Valid()
      && (existsOnChain || dispute.Some? ==> boardStates.reinits != map[])
      && (dispute.Some? ==> 0 <= dispute.value.turn < |Current().meta.participants|)
    }

    function Current(): ReinitData<P>
      requires boardStates.reinitId in boardStates.reinits
      reads this, boardStates
    {
      boardStates.reinits[boardStates.reinitId]
    }

    function CurrentContext(): Context<P>
      requires boardStates.reinitId in boardStates.reinits
      reads this, boardStates
    {
      Context(env, channelId, Current().meta)
    }

    /** The dispute is against our player, and we know a fresher state. */
    predicate Resolves(d: Option<DisputeData>)
      reads this, boardStates
    {
      && existsOnChain && d.Some? && boardStates.reinitId in boardStates.reinits
      && NameIs(Current().meta, d.value.turn, playerName)
      && env.turnCount(Current().latestState) > d.value.count
    }

    predicate CanResolve()
      reads this, boardStates
    {
      Resolves(dispute)
    }

    /** A dispute that we can resolve has a resolution on its way. */
    predicate DisputeAnswered()
      reads this, boardStates
    {
      CanResolve() ==> dispute.value.pendingResolution.Some?
    }

    /**
     * A resolution is sent exactly if the dispute would make our player lose, and the chain, with the
     * disputed state and reinitialisation that the daemon knows, would take our proof.
     */
    lemma CanResolveExactlyIf(v: ChannelValue)
      requires Valid() && LawfulRules(env) && dispute.Some? && existsOnChain
      requires boardStates.reinitId in boardStates.reinits
      requires v.meta == Current().meta && v.reinit == Current().reinitState
      requires var p := CurrentContext().Parse(v.LatestState()); p.Some? && env.turnCount(p.value) == dispute.value.count
      ensures CanResolve() <==>
        && Current().meta.participants[dispute.value.turn].name == playerName
        && Resolve(CurrentContext(), v, Current().proof).Some?
    {
      hide ValidProof, LawfulRules, Context.Lawful, CheckVersionedProto;
      assert SoundEntry(env, channelId, boardStates.reinitId, Current());
      EntryParses(env, channelId, boardStates.reinitId, Current());
    }

    /** What clients waiting for a change would want to see. */
    function Visible(): (bool, Option<(string, StateProof, P)>)
      reads this, boardStates
    {
      (existsOnChain, View(boardStates.Value()))
    }

    method NotifyStateChange()
      modifies this`stateVersion
      ensures stateVersion == old(stateVersion) + 1
    {
      stateVersion := stateVersion + 1;
    }

    /**
     * Makes the move for the player on turn and signs it. CHECKs fail if the channel is gone, and
     * if the rolling state does not take the result over, because it does not parse or is not fresher.
     */
    method ApplyLocalMove(w: World<P>, mv: BoardMove) returns (r: Outcome)
      requires Trusted(env, w) && Valid() && boardStates.reinits != map[]
      modifies boardStates
      ensures Valid()
      ensures r == Applied <==> !stopped && existsOnChain && CanPlay(env, channelId, w, old(boardStates.Value()), mv)
      ensures r == Refused <==>
        !stopped && existsOnChain && !Extendable(old(CurrentContext()), w.wallet, old(Current().proof), mv)
      ensures r != Applied ==> boardStates.Value() == old(boardStates.Value())
      ensures r == Applied ==> boardStates.Value() == Moved(env, channelId, w, old(boardStates.Value()), mv)
    {
      hide Context.Lawful, ValidProof, HonestWallet, Covers, States, FullChain, ProofAborts, OffChainAborts,
        NewTransition, Extendable, ApplyOffChain, View, LawfulRules, CheckVersionedProto, SoundEntry, NameIs, Extended;
      if stopped || !existsOnChain {
        return Failed;
      }
      var c := CurrentContext();
      ghost var e, was := Current(), boardStates.Value();
      assert SoundEntry(env, channelId, boardStates.reinitId, e);
      EntryParses(env, channelId, boardStates.reinitId, e);
      assert c.Lawful() by { ContextLawful(env, channelId, e.meta); }
      var extended, newProof := ExtendStateProof(c, w.wallet, Current().proof, mv);
      if !extended {
        return Refused;
      }
      ExtensionEnds(c, w.wallet, e.proof, mv);
      if CanPlay(env, channelId, w, was, mv) {
        MovedIs(env, channelId, w, was, mv);
      } else {
        OnlyFresherIsTaken(env, channelId, was, newProof);
      }
      var updated, failed := boardStates.UpdateWithMove(boardStates.reinitId, newProof);
      if failed || !updated {
        return Failed;
      }
      return Applied;
    }

    /** Our player is on turn, and the game has an automatic move. */
    predicate AutoMoveDue(w: World<P>)
      reads this, boardStates
    {
      AutoMoveDueIn(env, w, playerName, boardStates.Value())
    }

    /** The automatic moves that are due in the latest state. */
    ghost function Automatic(w: World<P>): Ran<P>
      reads this, boardStates
      requires Trusted(env, w) && Valid()
    {
      AutoRun(env, channelId, w, playerName, existsOnChain, boardStates.Value())
    }

    /** Makes automatic moves as long as there are any; a due one that cannot be made fails a CHECK. */
    method ProcessAutoMoves(w: World<P>) returns (found: bool, failed: bool)
      requires Trusted(env, w) && Valid() && boardStates.reinits != map[] && !stopped
      modifies boardStates
      ensures Valid()
      ensures failed == old(Automatic(w)).stuck
      ensures boardStates.Value() == old(Automatic(w)).st
      ensures !failed ==> (found <==> old(AutoMoveDue(w)))
      ensures !failed ==> (found <==> boardStates.Value() != old(boardStates.Value()))
    {
      hide Context.Lawful, ValidProof, HonestWallet, SoundEntry, Extendable, MovedTo, View, LawfulRules, Moved,
        CanPlay;
      found := false;
      ghost var was := boardStates.Value();
      while true
        invariant Valid() && boardStates.reinits != map[]
        invariant AutoRun(env, channelId, w, playerName, existsOnChain, boardStates.Value())
               == AutoRun(env, channelId, w, playerName, existsOnChain, was)
        invariant if found then LatestCount(env, boardStates.Value()) > LatestCount(env, was)
                  else boardStates.Value() == was
        invariant found ==> AutoMoveDueIn(env, w, playerName, was)
        decreases 0x1_0000_0000 - LatestCount(env, boardStates.Value())
      {
        var state, meta := Current().latestState, Current().meta;
        var turn := env.whoseTurn(state);
        CurrentTurn();
        if turn == NO_TURN {
          return found, false;
        }
        if meta.participants[turn].name != playerName {
          return found, false;
        }
        var mv := w.autoMove(state);
        if mv.None? {
          return found, false;
        }
        ghost var before := boardStates.Value();
        var outcome := ApplyLocalMove(w, mv.value);
        if outcome != Applied {
          return found, true;
        }
        MovedIs(env, channelId, w, before, mv.value);
        MovedOn(env, before, boardStates.Value(), mv.value);
        found := true;
      }
    }

    lemma CurrentTurn()
      requires LawfulRules(env) && Valid() && boardStates.reinits != map[]
      ensures var turn := env.whoseTurn(Current().latestState);
        turn == NO_TURN || 0 <= turn < |Current().meta.participants|
    {
      hide ValidProof, Context.Lawful;
      assert SoundEntry(env, channelId, boardStates.reinitId, Current());
      ContextTurn(env, channelId, Current().meta, UnverifiedProofEndState(Current().proof));
    }

    /** Sends a resolution if there is an open dispute that the latest state can resolve. */
    method TryResolveDispute(w: World<P>)
      requires Valid()
      modifies this`dispute, this`outbox
      ensures Valid()
      ensures old(CanResolve() && dispute.value.pendingResolution.None?) ==>
        && dispute == Some(old(dispute.value).(pendingResolution := w.sendResolution(Current().proof)))
        && outbox == old(outbox) + [Resolution(Current().proof)]
      ensures !old(CanResolve() && dispute.value.pendingResolution.None?) ==>
        dispute == old(dispute) && outbox == old(outbox)
    {
      hide SoundEntry;
      if !existsOnChain || dispute.None? || dispute.value.pendingResolution.Some? {
        return;
      }
      var meta := Current().meta;
      var turn := dispute.value.turn;
      assert turn != NO_TURN && 0 <= turn < |meta.participants|;
      if meta.participants[turn].name != playerName {
        return;
      }
      var latestCnt := env.turnCount(Current().latestState);
      if latestCnt <= dispute.value.count {
        return;
      }
      outbox := outbox + [Resolution(Current().proof)];
      dispute := Some(dispute.value.(pendingResolution := w.sendResolution(Current().proof)));
    }

    /** The first message sent since then is the current state. */
    predicate Announced(before: seq<Message>)
      reads this, boardStates
    {
      && boardStates.reinitId in boardStates.reinits
      && |outbox| > |before| && outbox[|before|] == NewState(boardStates.reinitId, Current().proof)
    }

    /** Exactly what is needed is on its way: a resolution still pending, or else one that was just sent. */
    predicate ResolutionOnItsWay(w: World<P>, pending: Option<Txid>, sent: seq<Message>)
      reads this, boardStates
    {
      && boardStates.reinitId in boardStates.reinits && dispute.Some?
      && if pending.Some? then dispute.value.pendingResolution == pending && NoResolution(sent)
         else if CanResolve() then
           Resolution(Current().proof) in sent
           && dispute.value.pendingResolution == w.sendResolution(Current().proof)
         else dispute.value.pendingResolution == None && NoResolution(sent)
    }

    /** The messages about the current state, after a change of it with a dispute open or not. */
    function Messages(w: World<P>, broadcast: bool, d: Option<DisputeData>): seq<Message>
      requires boardStates.reinitId in boardStates.reinits
      reads this, boardStates
    {
      var mv := w.onChainMove(Current().latestState);
      (if broadcast then [NewState(boardStates.reinitId, Current().proof)] else [])
      + (if Resolves(d) && d.value.pendingResolution.None? then [Resolution(Current().proof)] else [])
      + (if mv.Sends? then [GameMove(mv.mv)] else [])
    }

    /** The second half of ProcessStateUpdate: what is sent once the automatic moves are made. */
    method SendUpdates(w: World<P>, broadcast: bool) returns (failed: bool)
      requires Valid() && boardStates.reinitId in boardStates.reinits
      modifies this`dispute, this`outbox, this`stateVersion
      ensures Valid() && old(outbox) <= outbox
      ensures failed == (w.onChainMove(Current().latestState) == Fails)
      ensures !failed ==> stateVersion == old(stateVersion) + 1
      ensures !failed ==> outbox == old(outbox) + Messages(w, broadcast, old(dispute))
      ensures dispute == (
        if old(dispute).Some? && old(dispute).value.pendingResolution.None? && Resolves(old(dispute))
        then Some(old(dispute).value.(pendingResolution := w.sendResolution(Current().proof))) else old(dispute))
    {
      hide Sound, NameIs;
      if broadcast {
        outbox := outbox + [NewState(boardStates.reinitId, Current().proof)];
      }
      TryResolveDispute(w);
      var reaction := w.onChainMove(Current().latestState);
      if reaction == Fails {
        return true;
      }
      if reaction.Sends? {
        outbox := outbox + [GameMove(reaction.mv)];
      }
      NotifyStateChange();
      failed := false;
    }

    /** Sending these messages and noting the transaction is what a dispute needs. */
    lemma MessagesAnswer(w: World<P>, broadcast: bool, was: Option<DisputeData>, sent: seq<Message>)
      requires boardStates.reinitId in boardStates.reinits && sent == Messages(w, broadcast, was)
      requires dispute == (
        if was.Some? && was.value.pendingResolution.None? && Resolves(was)
        then Some(was.value.(pendingResolution := w.sendResolution(Current().proof))) else was)
      ensures if was.Some? then ResolutionOnItsWay(w, was.value.pendingResolution, sent) else NoResolution(sent)
      ensures broadcast ==> |sent| > 0 && sent[0] == NewState(boardStates.reinitId, Current().proof)
    {
      hide NameIs;
      if was.Some? && was.value.pendingResolution.None? && Resolves(was) {
        assert sent[if broadcast then 1 else 0] == Resolution(Current().proof);
      }
    }

    /** What happens after the known state has changed. */
    method ProcessStateUpdate(w: World<P>, broadcast: bool) returns (failed: bool)
      requires Trusted(env, w) && Valid() && boardStates.reinits != map[] && !stopped
      modifies this`dispute, this`outbox, this`stateVersion, boardStates
      ensures Valid()
      ensures boardStates.reinitId == old(boardStates.reinitId) && boardStates.reinitId in boardStates.reinits
      ensures failed == (old(Automatic(w)).stuck || w.onChainMove(Current().latestState) == Fails)
      ensures boardStates.Value() == old(Automatic(w)).st
      ensures !failed ==> stateVersion == old(stateVersion) + 1
      ensures !failed ==> outbox == old(outbox) + Messages(w, broadcast || old(AutoMoveDue(w)), old(dispute))
      ensures dispute.Some? && old(dispute).Some? ==>
        dispute.value.(pendingResolution := None) == old(dispute).value.(pendingResolution := None)
      ensures !failed ==>
        if old(dispute).Some?
        then ResolutionOnItsWay(w, old(dispute).value.pendingResolution, outbox[|old(outbox)|..])
        else NoResolution(outbox[|old(outbox)|..])
      ensures !failed && SendsSucceed(w) ==> DisputeAnswered()
      ensures !failed && (broadcast || View(boardStates.Value()) != View(old(boardStates.Value()))) ==>
        Announced(old(outbox))
      ensures old(outbox) <= outbox
      ensures dispute.Some? <==> old(dispute).Some?
    {
      hide LawfulRules, HonestWallet, SoundEntry, AutoMoveDueIn, NameIs, AutoRun, View, Messages, ResolutionOnItsWay;
      AutoRunKeeps(env, channelId, w, playerName, existsOnChain, boardStates.Value());
      var found;
      found, failed := ProcessAutoMoves(w);
      if failed {
        return;
      }
      failed := SendUpdates(w, broadcast || found);
      if !failed {
        MessagesAnswer(w, broadcast || found, old(dispute), outbox[|old(outbox)|..]);
      }
    }

    /** A state broadcast by another player. */
    method ProcessOffChain(w: World<P>, reinitId: string, proof: StateProof) returns (failed: bool)
      requires Trusted(env, w) && Valid()
      modifies this`dispute, this`outbox, this`stateVersion, boardStates
      ensures Valid() && old(outbox) <= outbox
      ensures stopped ==> !failed && boardStates.Value() == old(boardStates.Value())
      ensures var after := AfterOffChain(env, channelId, w, playerName, existsOnChain, old(boardStates.Value()),
                                         OffChain(reinitId, proof));
        !stopped ==> failed == after.stuck && (!failed ==> boardStates.Value() == after.st)
      ensures !failed && SendsSucceed(w) && old(DisputeAnswered()) ==> DisputeAnswered()
      ensures !failed && Visible() != old(Visible()) ==> stateVersion > old(stateVersion)
    {
      hide LawfulRules, HonestWallet, SoundEntry, Acceptable, AutoRun, OffChainAborts, Messages;
      failed := false;
      if stopped {
        return;
      }
      var changed;
      changed, failed := boardStates.UpdateWithMove(reinitId, proof);
      if failed || !changed {
        return;
      }
      failed := ProcessStateUpdate(w, false);
    }

    /** A block without data for our channel. */
    method ProcessOnChainNonExistant(blk: string, h: nat)
      requires Valid()
      modifies this`existsOnChain, this`blockHash, this`onChainHeight, this`stateVersion
      ensures Valid() && DisputeAnswered() == (if stopped then old(DisputeAnswered()) else true)
      ensures existsOnChain == (stopped && old(existsOnChain))
      ensures !stopped ==> blockHash == blk && onChainHeight == h
      ensures Visible() != old(Visible()) ==> stateVersion > old(stateVersion)
    {
      if stopped {
        return;
      }
      blockHash, onChainHeight := blk, h;
      existsOnChain := false;
      NotifyStateChange();
    }

    /** A transaction that is no longer pending is forgotten. */
    function ResetMinedTxid(w: World<P>, txid: Option<Txid>): Option<Txid> {
      if txid.Some? && w.isPending(txid.value) then txid else None
    }

    /** Follows the dispute on the chain; a resolution of ours that is still pending stays so. */
    method UpdateDispute(w: World<P>, proof: StateProof, disputeHeight: nat)
      requires LawfulRules(env) && boardStates.reinitId in boardStates.reinits
      requires CurrentContext().Parse(UnverifiedProofEndState(proof)).Some?
      requires disputeHeight > 0 ==>
        env.whoseTurn(CurrentContext().Parse(UnverifiedProofEndState(proof)).value) != NO_TURN
      modifies this`dispute
      ensures disputeHeight == 0 ==> dispute == None
      ensures disputeHeight > 0 ==>
        var p := CurrentContext().Parse(UnverifiedProofEndState(proof)).value;
        var was := if old(dispute).Some? then old(dispute).value.pendingResolution else None;
        && dispute.Some? && OnlyPendingNoted(w, was, dispute.value.pendingResolution)
        && dispute.value.(pendingResolution := None)
           == DisputeData(disputeHeight, env.whoseTurn(p), env.turnCount(p), None)
        && 0 <= dispute.value.turn < |Current().meta.participants|
    {
      hide LawfulRules;
      if disputeHeight == 0 {
        dispute := None;
      } else {
        var p := CurrentContext().Parse(UnverifiedProofEndState(proof)).value;
        ContextTurn(env, channelId, Current().meta, UnverifiedProofEndState(proof));
        var pending := if dispute.Some? then ResetMinedTxid(w, dispute.value.pendingResolution) else None;
        dispute := Some(DisputeData(disputeHeight, env.whoseTurn(p), env.turnCount(p), pending));
      }
    }

    /** Takes over a block's data for our channel, and the dispute that it shows. */
    method RecordBlock(w: World<P>, blk: string, h: nat, meta: Metadata, reinitState: BoardState,
                       proof: StateProof, disputeHeight: nat)
      requires LawfulRules(env) && Valid()
      requires Truthful(env, channelId, boardStates.Value(), OnChain(meta, reinitState, proof))
      requires var p := Context(env, channelId, meta).Parse(UnverifiedProofEndState(proof));
        disputeHeight > 0 && p.Some? ==> env.whoseTurn(p.value) != NO_TURN
      modifies this`blockHash, this`onChainHeight, this`pendingPutStateOnChain, this`pendingDispute,
        this`existsOnChain, this`dispute, boardStates
      ensures Valid() && existsOnChain && blockHash == blk && onChainHeight == h && boardStates.reinits != map[]
      ensures OnlyPendingNoted(w, old(pendingPutStateOnChain), pendingPutStateOnChain)
      ensures OnlyPendingNoted(w, old(pendingDispute), pendingDispute)
      ensures var c := Context(env, channelId, meta);
        && c.Parse(UnverifiedProofEndState(proof)).Some?
        && boardStates.Value() ==
           ApplyOnChain(env, channelId, old(boardStates.Value()), OnChain(meta, reinitState, proof))
        && (dispute.Some? <==> disputeHeight > 0)
        && (dispute.Some? ==>
              var p := c.Parse(UnverifiedProofEndState(proof)).value;
              var was := if old(dispute).Some? then old(dispute).value.pendingResolution else None;
              && OnlyPendingNoted(w, was, dispute.value.pendingResolution)
              && dispute.value.(pendingResolution := None)
                 == DisputeData(disputeHeight, env.whoseTurn(p), env.turnCount(p), None))
    {
      hide SoundEntry, ValidProof, ApplyOnChain, Context.Lawful, CheckVersionedProto, NameIs, LawfulRules, View,
        Truthful, UnverifiedProofEndState, Sound;
      blockHash, onChainHeight := blk, h;
      pendingPutStateOnChain := ResetMinedTxid(w, pendingPutStateOnChain);
      pendingDispute := ResetMinedTxid(w, pendingDispute);
      existsOnChain := true;
      OnChainCurrent(env, channelId, boardStates.Value(), OnChain(meta, reinitState, proof));
      var changed := boardStates.UpdateOnChain(meta, reinitState, proof);
      UpdateDispute(w, proof, disputeHeight);
    }

    /** A block's data for our channel; a disputed state is never one in which nobody is on turn. */
    method ProcessOnChain(w: World<P>, blk: string, h: nat, meta: Metadata, reinitState: BoardState,
                          proof: StateProof, disputeHeight: nat) returns (failed: bool)
      requires Trusted(env, w) && Valid()
      requires Truthful(env, channelId, boardStates.Value(), OnChain(meta, reinitState, proof))
      requires var p := Context(env, channelId, meta).Parse(UnverifiedProofEndState(proof));
        disputeHeight > 0 && p.Some? ==> env.whoseTurn(p.value) != NO_TURN
      modifies this, boardStates
      ensures Valid() && stopped == old(stopped) && old(outbox) <= outbox
      ensures !stopped ==> existsOnChain && blockHash == blk && onChainHeight == h
      ensures var after := AfterOnChain(env, channelId, w, playerName, old(boardStates.Value()),
                                        OnChain(meta, reinitState, proof));
        if stopped then !failed && boardStates.Value() == old(boardStates.Value()) && dispute == old(dispute)
        else failed == after.stuck && boardStates.Value() == after.st
      ensures !stopped ==>
        var c := Context(env, channelId, meta);
        && c.Parse(UnverifiedProofEndState(proof)).Some?
        && (dispute.Some? <==> disputeHeight > 0)
        && (dispute.Some? ==>
              var p := c.Parse(UnverifiedProofEndState(proof)).value;
              && dispute.value.height == disputeHeight && dispute.value.turn == env.whoseTurn(p)
              && dispute.value.count == env.turnCount(p))
      ensures !stopped && !failed && SendsSucceed(w) ==> DisputeAnswered()
      // A resolution sent before counts only while it is pending; otherwise a new one is sent if needed.
      ensures !stopped && !failed ==>
        var was := if old(dispute).Some? then old(dispute).value.pendingResolution else None;
        if dispute.Some? then
          ResolutionOnItsWay(w, if was.Some? && w.isPending(was.value) then was else None, outbox[|old(outbox)|..])
        else NoResolution(outbox[|old(outbox)|..])
      ensures !stopped ==> OnlyPendingNoted(w, old(pendingDispute), pendingDispute)
      ensures !stopped ==> OnlyPendingNoted(w, old(pendingPutStateOnChain), pendingPutStateOnChain)
      ensures !failed && Visible() != old(Visible()) ==> stateVersion > old(stateVersion)
    {
      hide HonestWallet, SoundEntry, ValidProof, ApplyOnChain, Context.Lawful, CheckVersionedProto, AutoMoveDueIn,
        NameIs, LawfulRules, View, Sound, Truthful, UnverifiedProofEndState, AutoRun, Messages;
      failed := false;
      if stopped {
        return;
      }
      RecordBlock(w, blk, h, meta, reinitState, proof, disputeHeight);
      failed := ProcessStateUpdate(w, false);
    }

    /** A move made by the local player. */
    method ProcessLocalMove(w: World<P>, mv: BoardMove) returns (failed: bool)
      requires Trusted(env, w) && Valid()
      modifies this`dispute, this`outbox, this`stateVersion, boardStates
      ensures Valid() && old(outbox) <= outbox
      ensures stopped || !existsOnChain ==> !failed && boardStates.Value() == old(boardStates.Value())
      ensures !stopped && existsOnChain ==>
        var after := AfterLocalMove(env, channelId, w, playerName, old(boardStates.Value()), mv);
        failed == after.stuck && (!failed ==> boardStates.Value() == after.st)
      ensures !failed && SendsSucceed(w) && old(DisputeAnswered()) ==> DisputeAnswered()
      ensures !failed && Visible() != old(Visible()) ==> stateVersion > old(stateVersion)
      ensures !failed && Visible() != old(Visible()) ==> existsOnChain && Announced(old(outbox))
    {
      hide LawfulRules, HonestWallet, SoundEntry, Extendable, MovedTo, AutoRun, CanPlay, Moved, View, Messages;
      failed := false;
      if stopped || !existsOnChain {
        return;
      }
      var outcome := ApplyLocalMove(w, mv);
      if outcome == Failed {
        return true;
      }
      if outcome == Refused {
        return;
      }
      failed := ProcessStateUpdate(w, true);
    }

    /** Something outside the board changed that may allow automatic moves. */
    method TriggerAutoMoves(w: World<P>) returns (failed: bool)
      requires Trusted(env, w) && Valid()
      modifies this`dispute, this`outbox, this`stateVersion, boardStates
      ensures Valid() && old(outbox) <= outbox
      ensures stopped || !existsOnChain ==> !failed && boardStates.Value() == old(boardStates.Value())
      ensures !stopped && existsOnChain ==>
        var after := AfterTrigger(env, channelId, w, playerName, old(boardStates.Value()));
        failed == after.stuck && boardStates.Value() == after.st
      ensures !failed && SendsSucceed(w) && old(DisputeAnswered()) ==> DisputeAnswered()
      ensures !failed && Visible() != old(Visible()) ==> stateVersion > old(stateVersion)
    {
      hide LawfulRules, HonestWallet, SoundEntry, AutoMoveDueIn, View, Messages;
      failed := false;
      if stopped || !existsOnChain {
        return;
      }
      AutoRunSettles(env, channelId, w, playerName, true, boardStates.Value());
      var found;
      found, failed := ProcessAutoMoves(w);
      if failed || !found {
        return;
      }
      failed := ProcessStateUpdate(w, true);
    }

    /** Sends the latest state if it is fresher than the one on the chain. */
    method PutStateOnChain(w: World<P>) returns (txid: Option<Txid>)
      requires Valid()
      modifies this`pendingPutStateOnChain, this`outbox
      ensures Valid() && DisputeAnswered() == old(DisputeAnswered())
      ensures existsOnChain && env.turnCount(Current().latestState) > Current().onChainTurn ==>
        outbox == old(outbox) + [Resolution(Current().proof)] && txid == w.sendResolution(Current().proof)
        && pendingPutStateOnChain == txid
      ensures !(existsOnChain && env.turnCount(Current().latestState) > Current().onChainTurn) ==>
        outbox == old(outbox) && txid == None && pendingPutStateOnChain == old(pendingPutStateOnChain)
    {
      hide ValidProof, NameIs;
      if !existsOnChain {
        return None;
      }
      var latestCnt := env.turnCount(Current().latestState);
      var onChainCnt := Current().onChainTurn;
      if latestCnt <= onChainCnt {
        assert SoundEntry(env, channelId, boardStates.reinitId, Current());
        assert latestCnt == onChainCnt;
        return None;
      }
      outbox := outbox + [Resolution(Current().proof)];
      pendingPutStateOnChain := w.sendResolution(Current().proof);
      return pendingPutStateOnChain;
    }

    /** Disputes the latest state, unless a dispute is open or on its way. */
    method FileDispute(w: World<P>) returns (txid: Option<Txid>)
      requires Valid()
      modifies this`pendingDispute, this`outbox
      ensures Valid() && DisputeAnswered() == old(DisputeAnswered())
      ensures existsOnChain && dispute.None? && old(pendingDispute).None? ==>
        outbox == old(outbox) + [Dispute(Current().proof)] && txid == w.sendDispute(Current().proof)
        && pendingDispute == txid
      ensures !(existsOnChain && dispute.None? && old(pendingDispute).None?) ==>
        outbox == old(outbox) && txid == None && pendingDispute == old(pendingDispute)
    {
      hide SoundEntry, NameIs;
      if !existsOnChain || dispute.Some? || pendingDispute.Some? {
        return None;
      }
      outbox := outbox + [Dispute(Current().proof)];
      pendingDispute := w.sendDispute(Current().proof);
      return pendingDispute;
    }

    method StopUpdates()
      requires Valid()
      modifies this`stopped, this`stateVersion
      ensures Valid() && stopped && DisputeAnswered() == old(DisputeAnswered())
    {
      stopped := true;
      NotifyStateChange();
    }
  }

  lemma ContextLawful<P(!new)>(env: Env<P>, id: ChannelId, meta: Metadata)
    requires LawfulRules(env)
    ensures Context(env, id, meta).Lawful()
  {
  }

  lemma ContextTurn<P(!new)>(env: Env<P>, id: ChannelId, meta: Metadata, s: BoardState)
    requires LawfulRules(env) && Context(env, id, meta).Parse(s).Some?
    ensures var turn := env.whoseTurn(Context(env, id, meta).Parse(s).value);
      turn == NO_TURN || 0 <= turn < |meta.participants|
  {
    assert Context(env, id, meta).Lawful();
    TurnInRange(Context(env, id, meta), s);
  }

  /** After an on-chain update its metadata is the current one. */
  lemma OnChainCurrent<P(!new)>(env: Env<P>, id: ChannelId, st: Rolling<P>, u: Update)
    requires LawfulRules(env) && Sound(env, id, st) && u.OnChain? && Truthful(env, id, st, u)
    ensures Context(env, id, u.meta).Parse(UnverifiedProofEndState(u.proof)).Some?
    ensures var t := ApplyOnChain(env, id, st, u);
      t.reinitId in t.reinits && t.reinits[t.reinitId].meta == u.meta
  {
    hide Context.Lawful, ValidProof;
    OnChainSound(env, id, st, u);
  }
}
