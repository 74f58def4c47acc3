/** On-chain channel data, disputes and resolutions (gamechannel/database.cpp, channelgame.cpp). */
module ChannelGames {
  import opened Wrappers
  import opened Channels
  import opened StateProofs

  /** A channel as the game works with it. */
  datatype ChannelValue = ChannelValue(
    meta: Metadata, reinit: BoardState, proof: StateProof, disputeHeight: Option<nat>)
  {
    function LatestState(): BoardState {
      UnverifiedProofEndState(proof)
    }
  }

  /** A row of the channels table; the proof is null while the state is the reinitialisation's. */
  datatype Row = Row(meta: Metadata, reinit: BoardState, stateProof: Option<StateProof>, disputeHeight: Option<nat>)

  function StateProofFromReinit(reinit: BoardState): StateProof {
    StateProof(SignedData(reinit, [], false), [])
  }

  function Load(row: Row): ChannelValue {
    ChannelValue(row.meta, row.reinit, row.stateProof.GetOr(StateProofFromReinit(row.reinit)), row.disputeHeight)
  }

  function Store(v: ChannelValue): Row {
    Row(v.meta, v.reinit, if v.LatestState() == v.reinit then None else Some(v.proof), v.disputeHeight)
  }

  /** A proof that the game may keep for the channel. */
  ghost predicate GoodProof<P>(c: Context<P>, reinit: BoardState, proof: StateProof) {
    CheckVersionedProto(proof) && ValidProof(c, reinit, proof)
  }

  /** The proof made from the reinitialisation state alone is accepted. */
  lemma ReinitProofIsGood<P>(c: Context<P>, reinit: BoardState)
    requires c.Lawful() && c.Parse(reinit).Some?
    ensures GoodProof(c, reinit, StateProofFromReinit(reinit))
  {
    SelfEquivalent(c, reinit);
  }

  /** Writing a channel back and reading it again keeps everything but the form of a trivial proof. */
  lemma StoreLoad<P>(c: Context<P>, v: ChannelValue)
    requires c.Lawful() && c.Parse(v.reinit).Some? && GoodProof(c, v.reinit, v.proof)
    ensures Load(Store(v)) == v.(proof := Load(Store(v)).proof)
    ensures Load(Store(v)).LatestState() == v.LatestState()
    ensures GoodProof(c, v.reinit, Load(Store(v)).proof)
  {
    hide Context.Lawful, ValidProof;
    if v.LatestState() == v.reinit {
      ReinitProofIsGood(c, v.reinit);
    }
  }

  /** The handle through which a channel is changed, written back when it is closed. */
  class ChannelData {
    var id: ChannelId
    var initialised: bool
    var metadata: Metadata
    var reinit: BoardState
    var proof: StateProof
    var disputeHeight: nat
    var dirty: bool

    /** A new channel without data yet. */
    constructor CreateNew(id: ChannelId)
      ensures this.id == id && !initialised && dirty && disputeHeight == 0
    {
      this.id, initialised, disputeHeight, dirty := id, false, 0, true;
      metadata, reinit, proof := Metadata([], ""), "", StateProofFromReinit("");
    }

    constructor FromRow(id: ChannelId, row: Row)
      requires row.disputeHeight != Some(0)
      ensures this.id == id && initialised && !dirty && Value() == Load(row)
    {
      this.id, initialised, dirty := id, true, false;
      metadata, reinit := row.meta, row.reinit;
      if row.stateProof.None? {
        proof := StateProofFromReinit(row.reinit);
      } else {
        proof := row.stateProof.value;
      }
      disputeHeight := row.disputeHeight.GetOr(0);
    }

    function Value(): ChannelValue
      reads this
    {
      ChannelValue(metadata, reinit, proof, if disputeHeight == 0 then None else Some(disputeHeight))
    }

    method Reinitialise(m: Metadata, initialisedState: BoardState)
      requires initialised ==> metadata.reinit != m.reinit
      modifies this
      ensures initialised && dirty && id == old(id)
      ensures Value() == old(Value()).(
                meta := m, reinit := initialisedState, proof := StateProofFromReinit(initialisedState))
    {
      metadata := m;
      reinit := initialisedState;
      proof := StateProofFromReinit(reinit);
      initialised, dirty := true, true;
    }

    method SetStateProof(p: StateProof)
      requires initialised
      modifies this`proof, this`dirty
      ensures dirty && Value() == old(Value()).(proof := p)
    {
      dirty := true;
      proof := p;
    }

    method SetDisputeHeight(h: nat)
      requires h > 0
      modifies this`disputeHeight, this`dirty
      ensures dirty && Value() == old(Value()).(disputeHeight := Some(h))
    {
      dirty := true;
      disputeHeight := h;
    }

    method ClearDispute()
      modifies this`disputeHeight, this`dirty
      ensures dirty && Value() == old(Value()).(disputeHeight := None)
    {
      dirty := true;
      disputeHeight := 0;
    }

    /** What the destructor writes: the row if anything was changed. */
    method WriteBack(rows: map<ChannelId, Row>) returns (r: map<ChannelId, Row>)
      requires initialised
      ensures r == if dirty then rows[id := Store(Value())] else rows
    {
      if !dirty {
        return rows;
      }
      var latest := UnverifiedProofEndState(proof);
      r := rows[id := Row(metadata, reinit, if latest == reinit then None else Some(proof),
                          if disputeHeight == 0 then None else Some(disputeHeight))];
    }
  }

  // ---- Disputes and resolutions ----

  function Count<P>(c: Context<P>, s: BoardState): Unsigned
    requires c.Parse(s).Some?
  {
    c.env.turnCount(c.Parse(s).value)
  }

  /** What the source CHECKs before it handles a proof for a channel. */
  ghost predicate OnChainParses<P>(c: Context<P>, v: ChannelValue) {
    c.meta == v.meta && c.Parse(v.LatestState()).Some?
  }

  /** The proof's end state is acceptable in a dispute of the channel's state. */
  ghost predicate Disputable<P>(c: Context<P>, v: ChannelValue, proof: StateProof)
    requires OnChainParses(c, v)
  {
    var e := UnverifiedProofEndState(proof);
    && GoodProof(c, v.reinit, proof) && c.Parse(e).Some?
    && c.env.whoseTurn(c.Parse(e).value) != NO_TURN
    && (|| Count(c, e) > Count(c, v.LatestState())
        || (Count(c, e) == Count(c, v.LatestState()) && v.disputeHeight.None? && c.Equivalent(e, v.LatestState())))
  }

  ghost function Dispute<P>(c: Context<P>, v: ChannelValue, height: nat, proof: StateProof): Option<ChannelValue>
    requires OnChainParses(c, v)
  {
    if !Disputable(c, v, proof) then None
    else if Count(c, UnverifiedProofEndState(proof)) > Count(c, v.LatestState()) then
      Some(v.(proof := proof, disputeHeight := Some(height)))
    else
      Some(v.(disputeHeight := Some(height)))
  }

  ghost function Resolve<P>(c: Context<P>, v: ChannelValue, proof: StateProof): Option<ChannelValue>
    requires OnChainParses(c, v)
  {
    if GoodProof(c, v.reinit, proof) && c.Parse(UnverifiedProofEndState(proof)).Some?
      && Count(c, UnverifiedProofEndState(proof)) > Count(c, v.LatestState())
    then Some(v.(proof := proof, disputeHeight := None))
    else None
  }

  /** Verifying the proof fails the CHECK that results of moves parse. */
  ghost predicate FailsCheck<P>(c: Context<P>, proof: StateProof) {
    CheckVersionedProto(proof) && ProofAborts(c, proof)
  }

  method ProcessDispute<P>(c: Context<P>, ch: ChannelData, height: nat, proof: StateProof) returns (v: Verdict)
    requires c.Lawful() && ch.initialised && OnChainParses(c, ch.Value())
    requires height > 0 && (ch.disputeHeight > 0 ==> height >= ch.disputeHeight)
    modifies ch
    ensures v == CheckFailed <==> FailsCheck(c, proof)
    ensures v == Accepted <==> Dispute(c, old(ch.Value()), height, proof).Some?
    ensures v == Accepted ==> ch.dirty && ch.Value() == Dispute(c, old(ch.Value()), height, proof).value
    ensures v != Accepted ==> ch.Value() == old(ch.Value()) && ch.dirty == old(ch.dirty)
    ensures ch.id == old(ch.id) && ch.initialised
  {
    hide Context.Lawful, ValidProof, CheckVersionedProto, ProofAborts;
    if !CheckVersionedProto(proof) {
      return Rejected;
    }
    var verdict, provenState := VerifyStateProof(c, ch.reinit, proof);
    if verdict != Accepted {
      return verdict;
    }
    var onChainState := UnverifiedProofEndState(ch.proof);
    var onChainParsed := c.Parse(onChainState).value;
    var provenParsed := c.Parse(provenState).value;
    if c.env.whoseTurn(provenParsed) == NO_TURN {
      return Rejected;
    }
    var onChainCnt, provenCnt := c.env.turnCount(onChainParsed), c.env.turnCount(provenParsed);
    if provenCnt > onChainCnt {
      ch.SetStateProof(proof);
      ch.SetDisputeHeight(height);
      return Accepted;
    }
    if provenCnt < onChainCnt {
      return Rejected;
    }
    if ch.disputeHeight > 0 {
      return Rejected;
    }
    if !c.env.equals(provenParsed, onChainState) {
      return Rejected;
    }
    ch.SetDisputeHeight(height);
    return Accepted;
  }

  method ProcessResolution<P>(c: Context<P>, ch: ChannelData, proof: StateProof) returns (v: Verdict)
    requires c.Lawful() && ch.initialised && OnChainParses(c, ch.Value())
    modifies ch
    ensures v == CheckFailed <==> FailsCheck(c, proof)
    ensures v == Accepted <==> Resolve(c, old(ch.Value()), proof).Some?
    ensures v == Accepted ==> ch.dirty && ch.Value() == Resolve(c, old(ch.Value()), proof).value
    ensures v != Accepted ==> ch.Value() == old(ch.Value()) && ch.dirty == old(ch.dirty)
    ensures ch.id == old(ch.id) && ch.initialised
  {
    hide Context.Lawful, ValidProof, CheckVersionedProto, ProofAborts;
    if !CheckVersionedProto(proof) {
      return Rejected;
    }
    var verdict, provenState := VerifyStateProof(c, ch.reinit, proof);
    if verdict != Accepted {
      return verdict;
    }
    var onChainCnt := c.env.turnCount(c.Parse(UnverifiedProofEndState(ch.proof)).value);
    var provenCnt := c.env.turnCount(c.Parse(provenState).value);
    if provenCnt <= onChainCnt {
      return Rejected;
    }
    ch.SetStateProof(proof);
    ch.ClearDispute();
    return Accepted;
  }

  /** Progress of a channel: twice the turn count on the chain, plus one while that state is disputed. */
  function Rank<P>(c: Context<P>, v: ChannelValue): nat
    requires c.Parse(v.LatestState()).Some?
  {
    2 * Count(c, v.LatestState()) + (if v.disputeHeight.Some? then 1 else 0)
  }

  /** The state that the channel keeps is disputed only if someone is on turn in it. */
  predicate DisputedIsOnTurn<P>(c: Context<P>, v: ChannelValue) {
    v.disputeHeight.Some? && c.Parse(v.LatestState()).Some? ==>
      c.env.whoseTurn(c.Parse(v.LatestState()).value) != NO_TURN
  }

  /** Every accepted dispute makes progress, keeps a good proof, and disputes a state with a turn. */
  lemma DisputeProgress<P>(c: Context<P>, v: ChannelValue, height: nat, proof: StateProof)
    requires c.Lawful() && OnChainParses(c, v) && GoodProof(c, v.reinit, v.proof)
    requires Dispute(c, v, height, proof).Some?
    ensures var t := Dispute(c, v, height, proof).value;
      && t.meta == v.meta && t.reinit == v.reinit && GoodProof(c, t.reinit, t.proof)
      && c.Parse(t.LatestState()).Some? && Rank(c, t) > Rank(c, v)
      && t.disputeHeight == Some(height) && DisputedIsOnTurn(c, t)
  {
    hide ValidProof, Context.Lawful;
    if c.Equivalent(UnverifiedProofEndState(proof), v.LatestState()) {
      EquivalenceLaws(c, UnverifiedProofEndState(proof), v.LatestState());
    }
  }

  lemma ResolutionProgress<P>(c: Context<P>, v: ChannelValue, proof: StateProof)
    requires OnChainParses(c, v) && Resolve(c, v, proof).Some?
    ensures var t := Resolve(c, v, proof).value;
      && t.meta == v.meta && t.reinit == v.reinit && GoodProof(c, t.reinit, t.proof)
      && c.Parse(t.LatestState()).Some? && Rank(c, t) > Rank(c, v)
      && t.disputeHeight.None?
  {
    hide ValidProof;
  }

  /** A dispute that is still open can be answered exactly by a fresher good proof. */
  lemma AnswerableDispute<P>(c: Context<P>, v: ChannelValue, proof: StateProof)
    requires c.Lawful() && OnChainParses(c, v) && GoodProof(c, v.reinit, proof)
    ensures c.Parse(UnverifiedProofEndState(proof)).Some?
    ensures Resolve(c, v, proof).Some? <==> Count(c, UnverifiedProofEndState(proof)) > Count(c, v.LatestState())
  {
    hide Context.Lawful;
    PathEndParses(c, proof.initial.data, proof.transitions);
  }
}
