/** The best state proofs of pending moves (PendingMoves in gamechannel/channelgame.cpp). */
module PendingChannels {
  import opened Wrappers
  import opened Channels
  import opened StateProofs
  import opened ChannelGames

  datatype PendingChannelData = PendingChannelData(proof: StateProof, turnCount: Unsigned)

  /** What is kept for a channel after one more proof is seen in a pending move. */
  ghost function Offer<P>(
      c: Context<P>, v: ChannelValue, kept: Option<PendingChannelData>, proof: StateProof): Option<PendingChannelData>
    requires c.Lawful() && OnChainParses(c, v)
  {
    if !GoodProof(c, v.reinit, proof) then kept
    else
      ProofParses(c, v.reinit, proof);
      var count := Count(c, UnverifiedProofEndState(proof));
      var known := if kept.Some? then kept.value.turnCount else Count(c, v.LatestState());
      if count > known then Some(PendingChannelData(proof, count)) else kept
  }

  lemma ProofParses<P>(c: Context<P>, reinit: BoardState, proof: StateProof)
    requires c.Lawful() && GoodProof(c, reinit, proof)
    ensures c.Parse(UnverifiedProofEndState(proof)).Some?
  {
    hide Context.Lawful;
    PathEndParses(c, proof.initial.data, proof.transitions);
  }

  /** All proofs seen for a channel since the pending state was cleared. */
  ghost function Best<P>(c: Context<P>, v: ChannelValue, proofs: seq<StateProof>): Option<PendingChannelData>
    requires c.Lawful() && OnChainParses(c, v)
  {
    if proofs == [] then None
    else Offer(c, v, Best(c, v, proofs[..|proofs| - 1]), proofs[|proofs| - 1])
  }

  class PendingMoves<!P(!new)> {
    var channels: map<ChannelId, PendingChannelData>

    constructor ()
      ensures channels == map[]
    {
      channels := map[];
    }

    function Kept(id: ChannelId): Option<PendingChannelData>
      reads this
    {
      if id in channels then Some(channels[id]) else None
    }

    method Clear()
      modifies this
      ensures channels == map[]
    {
      channels := map[];
    }

    method AddPendingStateProof(c: Context<P>, ch: ChannelData, proof: StateProof) returns (failed: bool)
      requires c.Lawful() && c.id == ch.id && OnChainParses(c, ch.Value())
      modifies this
      ensures failed <==> FailsCheck(c, proof)
      ensures Kept(ch.id) == Offer(c, ch.Value(), old(Kept(ch.id)), proof)
      ensures forall id :: id != ch.id ==> Kept(id) == old(Kept(id))
    {
      hide Context.Lawful, ValidProof, CheckVersionedProto, ProofAborts;
      failed := false;
      if !CheckVersionedProto(proof) {
        return;
      }
      var verdict, provenState := VerifyStateProof(c, ch.reinit, proof);
      if verdict != Accepted {
        return verdict == CheckFailed;
      }
      var provenCnt := c.env.turnCount(c.Parse(provenState).value);
      if ch.id !in channels {
        var onChainCnt := c.env.turnCount(c.Parse(UnverifiedProofEndState(ch.proof)).value);
        if provenCnt > onChainCnt {
          channels := channels[ch.id := PendingChannelData(proof, provenCnt)];
        }
      } else if provenCnt > channels[ch.id].turnCount {
        channels := channels[ch.id := PendingChannelData(proof, provenCnt)];
      }
    }
  }

  ghost predicate IsFresh<P>(c: Context<P>, v: ChannelValue, proof: StateProof)
    requires c.Lawful() && OnChainParses(c, v)
  {
    GoodProof(c, v.reinit, proof)
    && (ProofParses(c, v.reinit, proof); Count(c, UnverifiedProofEndState(proof)) > Count(c, v.LatestState()))
  }

  /** A proof is kept exactly if a good one fresher than the chain was seen, and it is a freshest of those. */
  lemma {:induction false} BestIsFreshest<P>(c: Context<P>, v: ChannelValue, proofs: seq<StateProof>)
    requires c.Lawful() && OnChainParses(c, v)
    ensures Best(c, v, proofs).Some? <==> exists k :: 0 <= k < |proofs| && IsFresh(c, v, proofs[k])
    ensures Best(c, v, proofs).Some? ==>
      var best := Best(c, v, proofs).value;
      && best.proof in proofs && IsFresh(c, v, best.proof)
      && best.turnCount == Count(c, UnverifiedProofEndState(best.proof))
      && forall k :: 0 <= k < |proofs| && IsFresh(c, v, proofs[k]) ==>
           Count(c, UnverifiedProofEndState(proofs[k])) <= best.turnCount
  {
    hide Context.Lawful, GoodProof, OnChainParses;
    if proofs != [] {
      var m := |proofs| - 1;
      BestIsFreshest(c, v, proofs[..m]);
      if IsFresh(c, v, proofs[m]) {
        ProofParses(c, v.reinit, proofs[m]);
      }
      if Best(c, v, proofs[..m]).Some? {
        var k :| 0 <= k < m && IsFresh(c, v, proofs[..m][k]);
        assert IsFresh(c, v, proofs[k]);
      }
    }
  }

  /** Among equally fresh ones, the one seen first is kept. */
  lemma {:induction false} BestIsFirst<P>(c: Context<P>, v: ChannelValue, proofs: seq<StateProof>) returns (k: nat)
    requires c.Lawful() && OnChainParses(c, v) && Best(c, v, proofs).Some?
    ensures k < |proofs| && proofs[k] == Best(c, v, proofs).value.proof && IsFresh(c, v, proofs[k])
    ensures forall j :: 0 <= j < k && IsFresh(c, v, proofs[j]) ==>
      c.Parse(UnverifiedProofEndState(proofs[j])).Some? && c.Parse(UnverifiedProofEndState(proofs[k])).Some?
      && Count(c, UnverifiedProofEndState(proofs[j])) < Count(c, UnverifiedProofEndState(proofs[k]))
  {
    hide Context.Lawful, GoodProof, OnChainParses;
    var m := |proofs| - 1;
    BestIsFreshest(c, v, proofs);
    BestIsFreshest(c, v, proofs[..m]);
    if Best(c, v, proofs) == Best(c, v, proofs[..m]) {
      k := BestIsFirst(c, v, proofs[..m]);
      forall j | 0 <= j < k && IsFresh(c, v, proofs[j])
        ensures c.Parse(UnverifiedProofEndState(proofs[j])).Some? && c.Parse(UnverifiedProofEndState(proofs[k])).Some?
                && Count(c, UnverifiedProofEndState(proofs[j])) < Count(c, UnverifiedProofEndState(proofs[k]))
      {
        assert proofs[..m][j] == proofs[j];
      }
    } else {
      k := m;
      forall j | 0 <= j < k && IsFresh(c, v, proofs[j])
        ensures c.Parse(UnverifiedProofEndState(proofs[j])).Some? && c.Parse(UnverifiedProofEndState(proofs[k])).Some?
                && Count(c, UnverifiedProofEndState(proofs[j])) < Count(c, UnverifiedProofEndState(proofs[k]))
      {
        assert IsFresh(c, v, proofs[..m][j]);
        ProofParses(c, v.reinit, proofs[j]);
        ProofParses(c, v.reinit, proofs[k]);
      }
    }
  }

  /** Whatever is kept would be accepted as a resolution of a dispute on the chain's state. */
  lemma KeptResolves<P>(c: Context<P>, v: ChannelValue, proofs: seq<StateProof>)
    requires c.Lawful() && OnChainParses(c, v) && Best(c, v, proofs).Some?
    ensures Resolve(c, v, Best(c, v, proofs).value.proof).Some?
  {
    hide Context.Lawful, GoodProof;
    BestIsFreshest(c, v, proofs);
    ProofParses(c, v.reinit, Best(c, v, proofs).value.proof);
  }
}
