/** The latest known state of each reinitialisation of a channel (gamechannel/rollingstate.cpp). */
module RollingStates {
  import opened Wrappers
  import opened Channels
  import opened StateProofs

  datatype ReinitData<P> = ReinitData(
    meta: Metadata, reinitState: BoardState, onChainTurn: Unsigned, proof: StateProof, latestState: P)

  datatype Rolling<P> = Rolling(reinits: map<string, ReinitData<P>>, reinitId: string)

  datatype Update =
    | OnChain(meta: Metadata, reinitState: BoardState, proof: StateProof)
    | OffChain(reinit: string, proof: StateProof)

  /** The stored proof verifies, its end state is the stored one, and it is at least as fresh as the chain. */
  ghost predicate SoundEntry<P>(env: Env<P>, id: ChannelId, r: string, e: ReinitData<P>) {
    var c := Context(env, id, e.meta);
    && e.meta.reinit == r
    && CheckVersionedProto(e.proof)
    && ValidProof(c, e.reinitState, e.proof)
    && c.Parse(UnverifiedProofEndState(e.proof)) == Some(e.latestState)
    && e.onChainTurn <= env.turnCount(e.latestState)
  }

  ghost predicate Sound<P>(env: Env<P>, id: ChannelId, st: Rolling<P>) {
    && (forall r :: r in st.reinits ==> SoundEntry(env, id, r, st.reinits[r]))
    && (st.reinits != map[] ==> st.reinitId in st.reinits)
  }

  /** What the source CHECKs of on-chain data: a valid proof, and the reinit it is already known for. */
  ghost predicate Truthful<P>(env: Env<P>, id: ChannelId, st: Rolling<P>, u: Update) {
    u.OnChain? ==>
      && CheckVersionedProto(u.proof)
      && ValidProof(Context(env, id, u.meta), u.reinitState, u.proof)
      && (u.meta.reinit in st.reinits ==>
            st.reinits[u.meta.reinit].meta == u.meta && st.reinits[u.meta.reinit].reinitState == u.reinitState)
  }

  function CountOf<P>(c: Context<P>, proof: StateProof): Unsigned
    requires c.Parse(UnverifiedProofEndState(proof)).Some?
  {
    c.env.turnCount(c.Parse(UnverifiedProofEndState(proof)).value)
  }

  /** An entry with the fresher of its own and the given proof. */
  function Fresher<P>(c: Context<P>, e: ReinitData<P>, proof: StateProof): ReinitData<P>
    requires c.Parse(UnverifiedProofEndState(proof)).Some?
  {
    if c.env.turnCount(e.latestState) >= CountOf(c, proof) then e
    else e.(proof := proof, latestState := c.Parse(UnverifiedProofEndState(proof)).value)
  }

  ghost function ApplyOnChain<P>(env: Env<P>, id: ChannelId, st: Rolling<P>, u: Update): Rolling<P>
    requires u.OnChain? && Context(env, id, u.meta).Parse(UnverifiedProofEndState(u.proof)).Some?
  {
    var c, r := Context(env, id, u.meta), u.meta.reinit;
    var count := CountOf(c, u.proof);
    if r !in st.reinits then
      var parsed := c.Parse(UnverifiedProofEndState(u.proof)).value;
      Rolling(st.reinits[r := ReinitData(u.meta, u.reinitState, count, u.proof, parsed)], r)
    else
      var e := st.reinits[r];
      Rolling(st.reinits[r := Fresher(c, e.(onChainTurn := if count > e.onChainTurn then count else e.onChainTurn), u.proof)], r)
  }

  /** Off-chain data is believed only if it verifies for a reinit that is known from the chain. */
  ghost predicate Acceptable<P>(env: Env<P>, id: ChannelId, st: Rolling<P>, u: Update) {
    && u.OffChain? && u.reinit in st.reinits
    && CheckVersionedProto(u.proof)
    && ValidProof(Context(env, id, st.reinits[u.reinit].meta), st.reinits[u.reinit].reinitState, u.proof)
  }

  ghost function ApplyOffChain<P>(env: Env<P>, id: ChannelId, st: Rolling<P>, u: Update): Rolling<P>
    requires u.OffChain?
  {
    if !Acceptable(env, id, st, u) then st
    else
      var c := Context(env, id, st.reinits[u.reinit].meta);
      if c.Parse(UnverifiedProofEndState(u.proof)).None? then st
      else st.(reinits := st.reinits[u.reinit := Fresher(c, st.reinits[u.reinit], u.proof)])
  }

  /** Verifying the off-chain data fails the CHECK that results of moves parse. */
  ghost predicate OffChainAborts<P>(env: Env<P>, id: ChannelId, st: Rolling<P>, u: Update) {
    && u.OffChain? && u.reinit in st.reinits
    && CheckVersionedProto(u.proof)
    && ProofAborts(Context(env, id, st.reinits[u.reinit].meta), u.proof)
  }

  /** What clients see: the current reinitialisation with its proof and state. */
  function View<P>(st: Rolling<P>): Option<(string, StateProof, P)> {
    if st.reinitId !in st.reinits then None
    else Some((st.reinitId, st.reinits[st.reinitId].proof, st.reinits[st.reinitId].latestState))
  }

  class RollingState<P(!new)> {
    const env: Env<P>
    const channelId: ChannelId
    var reinits: map<string, ReinitData<P>>
    var reinitId: string

    constructor (env: Env<P>, channelId: ChannelId)
      ensures this.env == env && this.channelId == channelId
      ensures Value() == Rolling(map[], "") && Valid()
    {
      this.env, this.channelId := env, channelId;
      reinits, reinitId := map[], "";
    }

    function Value(): Rolling<P>
      reads this
    {
      Rolling(reinits, reinitId)
    }

    ghost predicate Valid()
      reads this
    {
      Sound(env, channelId, Value())
    }

    /** A block's data for the channel becomes the current reinitialisation. */
    method UpdateOnChain(meta: Metadata, reinitState: BoardState, proof: StateProof) returns (changed: bool)
      requires LawfulRules(env) && Valid()
      requires Truthful(env, channelId, Value(), OnChain(meta, reinitState, proof))
      modifies this
      ensures Context(env, channelId, meta).Parse(UnverifiedProofEndState(proof)).Some?
      ensures Value() == ApplyOnChain(env, channelId, old(Value()), OnChain(meta, reinitState, proof))
      ensures Valid()
      ensures changed <==> View(Value()) != View(old(Value()))
    {
      hide Context.Lawful, ValidProof;
      ghost var u := OnChain(meta, reinitState, proof);
      var c := Context(env, channelId, meta);
      var verdict, provenState := VerifyStateProof(c, reinitState, proof);
      assert verdict == Accepted;
      OnChainSound(env, channelId, Value(), u);
      var reinitChange := reinitId != meta.reinit;
      reinitId := meta.reinit;
      var parsed := c.Parse(provenState).value;
      var parsedCnt := env.turnCount(parsed);
      if reinitId !in reinits {
        reinits := reinits[reinitId := ReinitData(meta, reinitState, parsedCnt, proof, parsed)];
        return true;
      }
      var entry := reinits[reinitId];
      if parsedCnt > entry.onChainTurn {
        entry := entry.(onChainTurn := parsedCnt);
      }
      if env.turnCount(entry.latestState) >= parsedCnt {
        reinits := reinits[reinitId := entry];
        return reinitChange;
      }
      entry := entry.(proof := proof, latestState := parsed);
      reinits := reinits[reinitId := entry];
      return true;
    }

    /** Data from the other players is checked before it is used; verifying it can fail a CHECK. */
    method UpdateWithMove(updReinit: string, proof: StateProof) returns (changed: bool, failed: bool)
      requires LawfulRules(env) && Valid()
      modifies this
      ensures failed <==> OffChainAborts(env, channelId, old(Value()), OffChain(updReinit, proof))
      ensures Value() == ApplyOffChain(env, channelId, old(Value()), OffChain(updReinit, proof))
      ensures Valid()
      ensures changed <==> View(Value()) != View(old(Value()))
    {
      hide Context.Lawful, ValidProof, ProofAborts;
      OffChainSound(env, channelId, Value(), OffChain(updReinit, proof));
      if updReinit !in reinits {
        return false, false;
      }
      var entry := reinits[updReinit];
      if !CheckVersionedProto(proof) {
        return false, false;
      }
      var c := Context(env, channelId, entry.meta);
      var verdict, provenState := VerifyStateProof(c, entry.reinitState, proof);
      if verdict != Accepted {
        return false, verdict == CheckFailed;
      }
      var parsed := c.Parse(provenState).value;
      if env.turnCount(entry.latestState) >= env.turnCount(parsed) {
        return false, false;
      }
      reinits := reinits[updReinit := entry.(proof := proof, latestState := parsed)];
      return updReinit == reinitId, false;
    }
  }

  // ---- Steps keep the stored data sound and never lose freshness ----

  lemma ValidProofParses<P(!new)>(env: Env<P>, id: ChannelId, meta: Metadata, reinit: BoardState, proof: StateProof)
    requires LawfulRules(env) && ValidProof(Context(env, id, meta), reinit, proof)
    ensures Context(env, id, meta).Parse(UnverifiedProofEndState(proof)).Some?
  {
    PathEndParses(Context(env, id, meta), proof.initial.data, proof.transitions);
  }

  lemma OnChainSound<P(!new)>(env: Env<P>, id: ChannelId, st: Rolling<P>, u: Update)
    requires LawfulRules(env) && Sound(env, id, st) && u.OnChain? && Truthful(env, id, st, u)
    ensures Context(env, id, u.meta).Parse(UnverifiedProofEndState(u.proof)).Some?
    ensures Sound(env, id, ApplyOnChain(env, id, st, u))
  {
    hide Context.Lawful, ValidProof;
    ValidProofParses(env, id, u.meta, u.reinitState, u.proof);
  }

  lemma OffChainSound<P(!new)>(env: Env<P>, id: ChannelId, st: Rolling<P>, u: Update)
    requires LawfulRules(env) && Sound(env, id, st) && u.OffChain?
    ensures Acceptable(env, id, st, u) ==>
      Context(env, id, st.reinits[u.reinit].meta).Parse(UnverifiedProofEndState(u.proof)).Some?
    ensures Sound(env, id, ApplyOffChain(env, id, st, u))
  {
    hide Context.Lawful, ValidProof;
    if Acceptable(env, id, st, u) {
      ValidProofParses(env, id, st.reinits[u.reinit].meta, st.reinits[u.reinit].reinitState, u.proof);
    }
  }

  ghost function Apply<P>(env: Env<P>, id: ChannelId, st: Rolling<P>, u: Update): Rolling<P>
    requires u.OnChain? ==> Context(env, id, u.meta).Parse(UnverifiedProofEndState(u.proof)).Some?
  {
    if u.OnChain? then ApplyOnChain(env, id, st, u) else ApplyOffChain(env, id, st, u)
  }

  /** Once known, a reinitialisation keeps its identity, and neither of its counts ever falls. */
  lemma CountsNeverFall<P(!new)>(env: Env<P>, id: ChannelId, st: Rolling<P>, u: Update, r: string)
    requires LawfulRules(env) && Sound(env, id, st) && Truthful(env, id, st, u) && r in st.reinits
    ensures u.OnChain? ==> Context(env, id, u.meta).Parse(UnverifiedProofEndState(u.proof)).Some?
    ensures var t := Apply(env, id, st, u);
      && r in t.reinits
      && t.reinits[r].meta == st.reinits[r].meta && t.reinits[r].reinitState == st.reinits[r].reinitState
      && t.reinits[r].onChainTurn >= st.reinits[r].onChainTurn
      && env.turnCount(t.reinits[r].latestState) >= env.turnCount(st.reinits[r].latestState)
  {
    hide Context.Lawful, ValidProof;
    if u.OnChain? {
      ValidProofParses(env, id, u.meta, u.reinitState, u.proof);
    }
  }

  /** Some part of the proof uses fields that the channel's protocol version does not have. */
  predicate HasForeign(proof: StateProof) {
    proof.initial.foreign || exists k :: 0 <= k < |proof.transitions| && proof.transitions[k].newState.foreign
  }

  /** Such data is not believed, and is not even verified. */
  lemma ForeignIsIgnored<P>(env: Env<P>, id: ChannelId, st: Rolling<P>, u: Update)
    requires HasForeign(u.proof)
    ensures u.OnChain? ==> !Truthful(env, id, st, u)
    ensures u.OffChain? ==> ApplyOffChain(env, id, st, u) == st && !OffChainAborts(env, id, st, u)
  {
  }

  // ---- Runs ----

  /** The successive values of a rolling state under a list of updates. */
  ghost predicate IsHistory<P(!new)>(env: Env<P>, id: ChannelId, sts: seq<Rolling<P>>, us: seq<Update>) {
    && |sts| == |us| + 1
    && sts[0] == Rolling(map[], "")
    && forall k :: 0 <= k < |us| ==> Follows(env, id, sts[k], us[k], sts[k + 1])
  }

  ghost predicate Follows<P(!new)>(env: Env<P>, id: ChannelId, st: Rolling<P>, u: Update, t: Rolling<P>) {
    && Truthful(env, id, st, u)
    && (u.OnChain? ==> Context(env, id, u.meta).Parse(UnverifiedProofEndState(u.proof)).Some?)
    && t == Apply(env, id, st, u)
  }

  lemma FollowsSound<P(!new)>(env: Env<P>, id: ChannelId, st: Rolling<P>, u: Update, t: Rolling<P>)
    requires LawfulRules(env) && Sound(env, id, st) && Follows(env, id, st, u, t)
    ensures Sound(env, id, t)
  {
    hide Context.Lawful, ValidProof;
    if u.OnChain? {
      OnChainSound(env, id, st, u);
    } else {
      OffChainSound(env, id, st, u);
    }
  }

  lemma {:induction false} HistorySound<P(!new)>(
      env: Env<P>, id: ChannelId, sts: seq<Rolling<P>>, us: seq<Update>, k: nat)
    requires LawfulRules(env) && IsHistory(env, id, sts, us) && k <= |us|
    ensures Sound(env, id, sts[k])
  {
    hide Context.Lawful, ValidProof, Apply, Truthful;
    if k > 0 {
      HistorySound(env, id, sts, us, k - 1);
      assert Follows(env, id, sts[k - 1], us[k - 1], sts[k - 1 + 1]);
      FollowsSound(env, id, sts[k - 1], us[k - 1], sts[k]);
    }
  }

  /** The update brings a proof for r that is taken into account when it arrives. */
  ghost predicate Counts<P>(env: Env<P>, id: ChannelId, st: Rolling<P>, u: Update, r: string) {
    (u.OnChain? && u.meta.reinit == r) || (u.OffChain? && u.reinit == r && Acceptable(env, id, st, u))
  }

  /** How an update for r acts on r's entry, and that other updates leave it alone. */
  lemma EntryStep<P(!new)>(env: Env<P>, id: ChannelId, st: Rolling<P>, u: Update, t: Rolling<P>, r: string)
    requires LawfulRules(env) && Sound(env, id, st) && Follows(env, id, st, u, t)
    ensures !Counts(env, id, st, u, r) ==> (r in t.reinits <==> r in st.reinits)
    ensures !Counts(env, id, st, u, r) && r in st.reinits ==> t.reinits[r] == st.reinits[r]
    ensures Counts(env, id, st, u, r) ==> r in t.reinits
    ensures Counts(env, id, st, u, r) ==>
      var c := Context(env, id, t.reinits[r].meta);
      c.Parse(UnverifiedProofEndState(u.proof)).Some?
      && var arrived, now := CountOf(c, u.proof), env.turnCount(t.reinits[r].latestState);
         if r in st.reinits && env.turnCount(st.reinits[r].latestState) >= arrived
         then t.reinits[r].proof == st.reinits[r].proof && now == env.turnCount(st.reinits[r].latestState)
         else t.reinits[r].proof == u.proof && now == arrived
    ensures r in st.reinits ==> r in t.reinits && t.reinits[r].meta == st.reinits[r].meta
  {
    hide Context.Lawful, ValidProof;
    if u.OffChain? {
      OffChainSound(env, id, st, u);
    }
  }

  /**
   * After any history, the state kept for a reinitialisation comes from one of the proofs that
   * arrived for it, and has the largest turn count among all of them, whatever their order.
   */
  lemma {:induction false} LatestIsMaximum<P(!new)>(
      env: Env<P>, id: ChannelId, sts: seq<Rolling<P>>, us: seq<Update>, n: nat, r: string)
    requires LawfulRules(env) && IsHistory(env, id, sts, us) && n <= |us|
    ensures r in sts[n].reinits <==> exists j :: 0 <= j < n && Counts(env, id, sts[j], us[j], r)
    ensures r in sts[n].reinits ==>
      var c := Context(env, id, sts[n].reinits[r].meta);
      var best := env.turnCount(sts[n].reinits[r].latestState);
      && (forall j :: 0 <= j < n && Counts(env, id, sts[j], us[j], r) ==>
            c.Parse(UnverifiedProofEndState(us[j].proof)).Some? && CountOf(c, us[j].proof) <= best)
      && (exists j :: 0 <= j < n && Counts(env, id, sts[j], us[j], r)
            && sts[n].reinits[r].proof == us[j].proof && CountOf(c, us[j].proof) == best)
  {
    hide Context.Lawful, ValidProof, Apply, Truthful, Counts, CountOf, SoundEntry;
    if n > 0 {
      var m := n - 1;
      LatestIsMaximum(env, id, sts, us, m, r);
      HistorySound(env, id, sts, us, m);
      assert Follows(env, id, sts[m], us[m], sts[m + 1]);
      EntryStep(env, id, sts[m], us[m], sts[n], r);
    }
  }

  predicate IsBlockOf(u: Update, r: string) {
    u.OnChain? && u.meta.reinit == r
  }

  /** Only blocks move the count that is known to be on the chain, and never back. */
  lemma OnChainTurnStep<P(!new)>(env: Env<P>, id: ChannelId, st: Rolling<P>, u: Update, t: Rolling<P>, r: string)
    requires LawfulRules(env) && Sound(env, id, st) && Follows(env, id, st, u, t)
    ensures !IsBlockOf(u, r) ==> (r in t.reinits <==> r in st.reinits)
    ensures !IsBlockOf(u, r) && r in st.reinits ==> t.reinits[r].onChainTurn == st.reinits[r].onChainTurn
    ensures r in st.reinits ==> r in t.reinits && t.reinits[r].meta == st.reinits[r].meta
    ensures IsBlockOf(u, r) ==>
      r in t.reinits && t.reinitId == r
      && var c := Context(env, id, t.reinits[r].meta);
         c.Parse(UnverifiedProofEndState(u.proof)).Some?
         && var count := CountOf(c, u.proof);
            t.reinits[r].onChainTurn ==
              if r in st.reinits && st.reinits[r].onChainTurn > count then st.reinits[r].onChainTurn else count
  {
    hide Context.Lawful, ValidProof;
    if u.OffChain? {
      OffChainSound(env, id, st, u);
    }
  }

  /** The count that is known to be on the chain is the largest that a block has shown. */
  lemma {:induction false} OnChainTurnIsMaximum<P(!new)>(
      env: Env<P>, id: ChannelId, sts: seq<Rolling<P>>, us: seq<Update>, n: nat, r: string)
    requires LawfulRules(env) && IsHistory(env, id, sts, us) && n <= |us|
    ensures r in sts[n].reinits <==> exists j :: 0 <= j < n && IsBlockOf(us[j], r)
    ensures r in sts[n].reinits ==>
      var c := Context(env, id, sts[n].reinits[r].meta);
      && (forall j :: 0 <= j < n && IsBlockOf(us[j], r) ==>
            c.Parse(UnverifiedProofEndState(us[j].proof)).Some?
            && CountOf(c, us[j].proof) <= sts[n].reinits[r].onChainTurn)
      && (exists j :: 0 <= j < n && IsBlockOf(us[j], r) && CountOf(c, us[j].proof) == sts[n].reinits[r].onChainTurn)
  {
    hide Context.Lawful, ValidProof, Apply, Truthful, CountOf, SoundEntry;
    if n > 0 {
      var m := n - 1;
      OnChainTurnIsMaximum(env, id, sts, us, m, r);
      HistorySound(env, id, sts, us, m);
      assert Follows(env, id, sts[m], us[m], sts[m + 1]);
      OnChainTurnStep(env, id, sts[m], us[m], sts[n], r);
    }
  }

  /** The current reinitialisation is the one that the last block has shown. */
  lemma {:induction false} CurrentIsLastShown<P(!new)>(
      env: Env<P>, id: ChannelId, sts: seq<Rolling<P>>, us: seq<Update>, j: nat, n: nat)
    requires LawfulRules(env) && IsHistory(env, id, sts, us) && j < n <= |us|
    requires us[j].OnChain? && forall k :: j < k < n ==> us[k].OffChain?
    ensures sts[n].reinitId == us[j].meta.reinit && sts[n].reinitId in sts[n].reinits
    ensures sts[n].reinits[sts[n].reinitId].meta == us[j].meta
  {
    hide Context.Lawful, ValidProof, Truthful, CountOf, SoundEntry, Acceptable;
    var m := n - 1;
    HistorySound(env, id, sts, us, m);
    assert Follows(env, id, sts[m], us[m], sts[m + 1]);
    FollowedReinit(env, id, sts[m], us[m], sts[n]);
    if j < m {
      CurrentIsLastShown(env, id, sts, us, j, m);
    }
  }

  lemma FollowedReinit<P(!new)>(env: Env<P>, id: ChannelId, st: Rolling<P>, u: Update, t: Rolling<P>)
    requires LawfulRules(env) && Sound(env, id, st) && Follows(env, id, st, u, t)
    ensures u.OnChain? ==>
      t.reinitId == u.meta.reinit && t.reinitId in t.reinits && t.reinits[t.reinitId].meta == u.meta
    ensures u.OffChain? ==>
      && t.reinitId == st.reinitId && t.reinits.Keys == st.reinits.Keys
      && forall r :: r in st.reinits ==> t.reinits[r].meta == st.reinits[r].meta
  {
    hide Context.Lawful, ValidProof;
  }
}
