/** Chains of signed states that prove a channel's current state (gamechannel/stateproof.cpp). */
module StateProofs {
  import opened Wrappers
  import opened Counting
  import opened Channels
  import opened Signatures

  const TOPIC := "state"

  /** The move is legal in s, leads to the claimed state, and the player on turn signed that state. */
  predicate LegalStep<P>(c: Context<P>, s: BoardState, t: StateTransition) {
    c.Parse(s).Some? && StepFrom(c, c.Parse(s).value, t)
  }

  predicate StepFrom<P>(c: Context<P>, p: P, t: StateTransition) {
    && c.env.whoseTurn(p) != NO_TURN
    && c.env.applyMove(p, t.move).Some?
    && c.Equivalent(c.env.applyMove(p, t.move).value, t.newState.data)
    && c.env.whoseTurn(p) in (set i | i in c.Signers(TOPIC, t.newState) :: i as int)
  }

  /** The state in which the k-th move of a chain is made. */
  function StateBefore(start: BoardState, path: seq<StateTransition>, k: nat): BoardState
    requires k <= |path|
  {
    if k == 0 then start else path[k - 1].newState.data
  }

  /** A chain of legal moves, each signed by the player on turn. */
  ghost predicate LegalPath<P>(c: Context<P>, start: BoardState, path: seq<StateTransition>) {
    && c.Parse(start).Some?
    && forall k :: 0 <= k < |path| ==> LegalStep(c, StateBefore(start, path, k), path[k])
  }

  /** All states of a proof, with the initial one in front. */
  function States(proof: StateProof): seq<SignedData> {
    [proof.initial] + seq(|proof.transitions|, k requires 0 <= k < |proof.transitions| => proof.transitions[k].newState)
  }

  /** The participants who signed at least one of the states. */
  function SignersIn<P>(c: Context<P>, states: seq<SignedData>): set<nat> {
    set k, i | 0 <= k < |states| && i in c.Signers(TOPIC, states[k]) :: i
  }

  /** Every participant signed one of the states. */
  predicate Covers<P>(c: Context<P>, states: seq<SignedData>) {
    forall i :: 0 <= i < c.Size() ==> i in SignersIn(c, states)
  }

  /** The proofs that VerifyStateProof accepts for a reinitialisation state. */
  ghost predicate ValidProof<P>(c: Context<P>, reinit: BoardState, proof: StateProof) {
    && LegalPath(c, proof.initial.data, proof.transitions)
    && (c.Equivalent(proof.initial.data, reinit) || Covers(c, States(proof)))
  }

  // ---- Facts about equivalent encodings ----

  lemma EquivalenceLaws<P>(c: Context<P>, s: BoardState, t: BoardState)
    requires c.Lawful() && c.Equivalent(s, t)
    ensures c.Parse(t).Some? && c.Alike(c.Parse(s).value, c.Parse(t).value)
    ensures c.Equivalent(t, s) && c.Equivalent(s, s)
    ensures forall u :: c.Equivalent(t, u) <==> c.Equivalent(s, u)
  {
  }

  lemma SelfEquivalent<P>(c: Context<P>, s: BoardState)
    requires c.Lawful() && c.Parse(s).Some?
    ensures c.Equivalent(s, s) && c.Alike(c.Parse(s).value, c.Parse(s).value)
  {
    EquivalenceLaws(c, s, s);
  }

  /** Steps do not depend on how the state they start from is encoded. */
  lemma StepAlike<P>(c: Context<P>, p: P, s: BoardState, t: StateTransition)
    requires c.Lawful() && c.Parse(s).Some? && c.Alike(p, c.Parse(s).value)
    ensures StepFrom(c, p, t) <==> LegalStep(c, s, t)
  {
    var q := c.Parse(s).value;
    if c.env.applyMove(p, t.move).Some? && c.Parse(c.env.applyMove(p, t.move).value).Some? {
      EquivalenceLaws(c, c.env.applyMove(p, t.move).value, c.env.applyMove(q, t.move).value);
    }
  }

  lemma StepEndParses<P>(c: Context<P>, s: BoardState, t: StateTransition)
    requires c.Lawful() && LegalStep(c, s, t)
    ensures c.Parse(t.newState.data).Some?
  {
    EquivalenceLaws(c, c.env.applyMove(c.Parse(s).value, t.move).value, t.newState.data);
  }

  lemma PathEndParses<P>(c: Context<P>, start: BoardState, path: seq<StateTransition>)
    requires c.Lawful() && LegalPath(c, start, path)
    ensures c.Parse(EndState(start, path)).Some?
  {
    if path != [] {
      var n := |path| - 1;
      assert LegalStep(c, StateBefore(start, path, n), path[n]);
      StepEndParses(c, StateBefore(start, path, n), path[n]);
    }
  }

  lemma StepAt<P>(c: Context<P>, start: BoardState, path: seq<StateTransition>, k: nat)
    requires LegalPath(c, start, path) && k < |path|
    ensures LegalStep(c, StateBefore(start, path, k), path[k])
    ensures StateBefore(start, path, k + 1) == path[k].newState.data
  {
    hide LegalStep, Context.Parse;
  }

  // ---- The failing CHECK ----

  /** A check's outcome; the source aborts if a move that the board accepts gives a state that does not parse. */
  datatype Verdict = Accepted | Rejected | CheckFailed

  /** Someone is on turn, and the board accepts the move, but its result does not parse. */
  predicate StepAborts<P>(c: Context<P>, p: P, mv: BoardMove) {
    c.env.whoseTurn(p) != NO_TURN && c.env.applyMove(p, mv).Some? && c.Parse(c.env.applyMove(p, mv).value).None?
  }

  /** The k-th move of the proof aborts, after legal signed moves before it. */
  ghost predicate AbortsAt<P>(c: Context<P>, proof: StateProof, k: nat) {
    && k < |proof.transitions|
    && LegalPath(c, proof.initial.data, proof.transitions[..k])
    && c.Parse(StateBefore(proof.initial.data, proof.transitions, k)).Some?
    && StepAborts(c, c.Parse(StateBefore(proof.initial.data, proof.transitions, k)).value, proof.transitions[k].move)
  }

  ghost predicate ProofAborts<P>(c: Context<P>, proof: StateProof) {
    exists k: nat :: AbortsAt(c, proof, k)
  }

  lemma StepAbortsAlike<P>(c: Context<P>, p: P, q: P, mv: BoardMove)
    requires c.Alike(p, q)
    ensures StepAborts(c, p, mv) <==> StepAborts(c, q, mv)
  {
  }

  /** A legal step does not abort, so nothing aborts while the moves before it are still legal. */
  lemma AbortsOnlyAfterLegal<P>(c: Context<P>, proof: StateProof, n: nat)
    requires n <= |proof.transitions|
    requires forall j :: 0 <= j < n ==>
      LegalStep(c, StateBefore(proof.initial.data, proof.transitions, j), proof.transitions[j])
    ensures forall k: nat :: AbortsAt(c, proof, k) ==> k >= n
  {
    forall k: nat | k < n ensures !AbortsAt(c, proof, k) {
      assert LegalStep(c, StateBefore(proof.initial.data, proof.transitions, k), proof.transitions[k]);
    }
  }

  lemma LegalBeforeAbort<P>(c: Context<P>, proof: StateProof, k: nat, n: nat)
    requires AbortsAt(c, proof, k) && n < k
    ensures LegalStep(c, StateBefore(proof.initial.data, proof.transitions, n), proof.transitions[n])
  {
    var path := proof.transitions[..k];
    assert LegalStep(c, StateBefore(proof.initial.data, path, n), path[n]);
  }

  /** A valid proof is never one that aborts. */
  lemma ValidDoesNotAbort<P>(c: Context<P>, reinit: BoardState, proof: StateProof)
    requires ValidProof(c, reinit, proof)
    ensures !ProofAborts(c, proof)
  {
    hide LegalStep;
    AbortsOnlyAfterLegal(c, proof, |proof.transitions|);
  }

  // ---- Verification ----

  /** Checks one transition from a parsed state and parses the state it leads to. */
  method ExtraVerifyStateTransition<P>(c: Context<P>, p: P, ghost s: BoardState, t: StateTransition)
      returns (v: Verdict, signatures: set<nat>, parsedNew: Option<P>)
    requires c.Lawful() && c.Parse(s).Some? && c.Alike(p, c.Parse(s).value)
    ensures v == Accepted <==> LegalStep(c, s, t)
    ensures v == CheckFailed <==> StepAborts(c, c.Parse(s).value, t.move)
    ensures v == Accepted ==> signatures == c.Signers(TOPIC, t.newState)
    ensures v == Accepted ==> parsedNew.Some? && c.Parse(t.newState.data).Some?
    ensures v == Accepted ==> c.Alike(parsedNew.value, c.Parse(t.newState.data).value)
  {
    StepAlike(c, p, s, t);
    StepAbortsAlike(c, p, c.Parse(s).value, t.move);
    signatures, parsedNew := {}, None;
    var turn := c.env.whoseTurn(p);
    if turn == NO_TURN {
      return Rejected, signatures, parsedNew;
    }
    var newState := c.env.applyMove(p, t.move);
    if newState.None? {
      return Rejected, signatures, parsedNew;
    }
    parsedNew := c.Parse(newState.value);
    if parsedNew.None? {
      return CheckFailed, signatures, parsedNew;
    }
    if !c.env.equals(parsedNew.value, t.newState.data) {
      return Rejected, signatures, parsedNew;
    }
    signatures := VerifyParticipantSignatures(c, TOPIC, t.newState);
    if turn < 0 || turn !in signatures {
      return Rejected, signatures, parsedNew;
    }
    return Accepted, signatures, parsedNew;
  }

  method VerifyStateTransition<P>(c: Context<P>, oldState: BoardState, t: StateTransition) returns (v: Verdict)
    requires c.Lawful()
    ensures v == Accepted <==> LegalStep(c, oldState, t)
    ensures v == CheckFailed <==> c.Parse(oldState).Some? && StepAborts(c, c.Parse(oldState).value, t.move)
  {
    var parsedOld := c.Parse(oldState);
    if parsedOld.None? {
      return Rejected;
    }
    SelfEquivalent(c, oldState);
    var signatures, parsedNew;
    v, signatures, parsedNew := ExtraVerifyStateTransition(c, parsedOld.value, oldState, t);
  }

  lemma StatesAt(proof: StateProof)
    ensures |States(proof)| == |proof.transitions| + 1 && States(proof)[0] == proof.initial
    ensures forall k :: 0 <= k < |proof.transitions| ==> States(proof)[k + 1] == proof.transitions[k].newState
    ensures forall k :: 0 <= k <= |proof.transitions| ==>
      States(proof)[k].data == StateBefore(proof.initial.data, proof.transitions, k)
  {
  }

  /** The loop of VerifyStateProof after k transitions. */
  ghost predicate Walked<P>(
      c: Context<P>, proof: StateProof, k: nat, endState: BoardState, parsed: P, signatures: set<nat>) {
    && k <= |proof.transitions|
    && endState == StateBefore(proof.initial.data, proof.transitions, k)
    && c.Parse(endState).Some? && c.Alike(parsed, c.Parse(endState).value)
    && (forall j :: 0 <= j < k ==>
          LegalStep(c, StateBefore(proof.initial.data, proof.transitions, j), proof.transitions[j]))
    && signatures == SignersIn(c, States(proof)[..k + 1])
  }

  lemma WalkStart<P>(c: Context<P>, proof: StateProof)
    requires c.Lawful() && c.Parse(proof.initial.data).Some?
    ensures Walked(c, proof, 0, proof.initial.data, c.Parse(proof.initial.data).value,
                   c.Signers(TOPIC, proof.initial))
  {
    hide Context.Lawful, Context.Signers, SignersIn;
    SelfEquivalent(c, proof.initial.data);
    NoSigners(c);
    SignersAppend(c, [], proof.initial);
    assert States(proof)[..1] == [] + [proof.initial];
  }

  lemma WalkStep<P>(c: Context<P>, proof: StateProof, k: nat, endState: BoardState, parsed: P,
                    signatures: set<nat>, parsedNew: P)
    requires Walked(c, proof, k, endState, parsed, signatures) && k < |proof.transitions|
    requires LegalStep(c, endState, proof.transitions[k])
    requires c.Parse(proof.transitions[k].newState.data).Some?
    requires c.Alike(parsedNew, c.Parse(proof.transitions[k].newState.data).value)
    ensures Walked(c, proof, k + 1, proof.transitions[k].newState.data, parsedNew,
                   signatures + c.Signers(TOPIC, proof.transitions[k].newState))
  {
    hide LegalStep, Context.Signers, SignersIn, Context.Alike, States;
    StatesAt(proof);
    SignersAppend(c, States(proof)[..k + 1], proof.transitions[k].newState);
    assert States(proof)[..k + 2] == States(proof)[..k + 1] + [proof.transitions[k].newState];
  }

  lemma WalkEnd<P>(c: Context<P>, proof: StateProof, endState: BoardState, parsed: P, signatures: set<nat>)
    requires Walked(c, proof, |proof.transitions|, endState, parsed, signatures)
    requires c.Parse(proof.initial.data).Some?
    ensures LegalPath(c, proof.initial.data, proof.transitions) && !ProofAborts(c, proof)
    ensures signatures == SignersIn(c, States(proof)) && endState == UnverifiedProofEndState(proof)
    ensures c.Parse(endState).Some?
  {
    hide LegalStep, SignersIn, Context.Alike, StepAborts;
    assert States(proof)[..|proof.transitions| + 1] == States(proof);
    AbortsOnlyAfterLegal(c, proof, |proof.transitions|);
  }

  lemma WalkFails<P>(c: Context<P>, reinit: BoardState, proof: StateProof, k: nat, endState: BoardState,
                     parsed: P, signatures: set<nat>)
    requires Walked(c, proof, k, endState, parsed, signatures) && k < |proof.transitions|
    requires !LegalStep(c, endState, proof.transitions[k])
    ensures !ValidProof(c, reinit, proof)
    ensures ProofAborts(c, proof) <==> StepAborts(c, c.Parse(endState).value, proof.transitions[k].move)
  {
    hide LegalStep, Context.Alike, SignersIn, StepAborts;
    AbortsOnlyAfterLegal(c, proof, k);
    forall j: nat | AbortsAt(c, proof, j) ensures j == k {
      if k < j {
        LegalBeforeAbort(c, proof, j, k);
      }
    }
    if StepAborts(c, c.Parse(endState).value, proof.transitions[k].move) {
      PrefixLegal(c, proof, k, endState, parsed, signatures);
      assert AbortsAt(c, proof, k);
    }
  }

  lemma PrefixLegal<P>(c: Context<P>, proof: StateProof, k: nat, endState: BoardState, parsed: P, signatures: set<nat>)
    requires Walked(c, proof, k, endState, parsed, signatures)
    ensures LegalPath(c, proof.initial.data, proof.transitions[..k])
  {
    hide Context.Alike, SignersIn, StepFrom;
    var path := proof.transitions[..k];
    if k > 0 {
      assert LegalStep(c, StateBefore(proof.initial.data, proof.transitions, 0), proof.transitions[0]);
    }
    forall j | 0 <= j < k ensures LegalStep(c, StateBefore(proof.initial.data, path, j), path[j]) {
      assert LegalStep(c, StateBefore(proof.initial.data, proof.transitions, j), proof.transitions[j]);
    }
  }

  lemma WalkAt<P>(c: Context<P>, proof: StateProof, k: nat, endState: BoardState, parsed: P, signatures: set<nat>)
    requires Walked(c, proof, k, endState, parsed, signatures)
    ensures c.Parse(endState).Some? && c.Alike(parsed, c.Parse(endState).value)
  {
    hide Context.Alike, LegalStep, SignersIn;
  }

  lemma UnparsedRejected<P>(c: Context<P>, reinit: BoardState, proof: StateProof)
    requires c.Parse(proof.initial.data).None?
    ensures !ValidProof(c, reinit, proof) && !ProofAborts(c, proof)
  {
  }

  method VerifyStateProof<P>(c: Context<P>, reinitState: BoardState, proof: StateProof)
      returns (v: Verdict, endState: BoardState)
    requires c.Lawful()
    ensures v == Accepted <==> ValidProof(c, reinitState, proof)
    ensures v == CheckFailed <==> ProofAborts(c, proof)
    ensures v == Accepted ==> endState == UnverifiedProofEndState(proof) && c.Parse(endState).Some?
  {
    hide Context.Lawful, LegalStep, LegalPath, Context.Alike, Context.Signers, SignersIn, States,
      UnverifiedProofEndState, Walked, Context.Parse, ProofAborts, StepAborts;
    endState := proof.initial.data;
    var signatures := VerifyParticipantSignatures(c, TOPIC, proof.initial);
    var initial := c.Parse(proof.initial.data);
    if initial.None? {
      UnparsedRejected(c, reinitState, proof);
      return Rejected, endState;
    }
    WalkStart(c, proof);
    var parsed := initial.value;
    var foundOnChain := c.env.equals(parsed, reinitState);
    for k := 0 to |proof.transitions|
      invariant Walked(c, proof, k, endState, parsed, signatures)
    {
      var t := proof.transitions[k];
      WalkAt(c, proof, k, endState, parsed, signatures);
      var step, newSignatures, parsedNew := ExtraVerifyStateTransition(c, parsed, endState, t);
      if step != Accepted {
        WalkFails(c, reinitState, proof, k, endState, parsed, signatures);
        return step, endState;
      }
      WalkStep(c, proof, k, endState, parsed, signatures, parsedNew.value);
      signatures := signatures + newSignatures;
      parsed := parsedNew.value;
      endState := t.newState.data;
    }
    WalkEnd(c, proof, endState, parsed, signatures);
    if foundOnChain {
      return Accepted, endState;
    }
    for i := 0 to c.Size()
      invariant forall j :: 0 <= j < i ==> j in signatures
    {
      if i !in signatures {
        return Rejected, endState;
      }
    }
    return Accepted, endState;
  }

  lemma NoSigners<P>(c: Context<P>)
    ensures SignersIn(c, []) == {}
  {
  }

  lemma SignersAppend<P>(c: Context<P>, states: seq<SignedData>, d: SignedData)
    ensures SignersIn(c, states + [d]) == SignersIn(c, states) + c.Signers(TOPIC, d)
  {
    forall i | i in SignersIn(c, states) ensures i in SignersIn(c, states + [d]) {
      var k :| 0 <= k < |states| && i in c.Signers(TOPIC, states[k]);
      assert (states + [d])[k] == states[k];
    }
    assert (states + [d])[|states|] == d;
  }

  lemma SignersPrepend<P>(c: Context<P>, d: SignedData, states: seq<SignedData>)
    ensures SignersIn(c, [d] + states) == c.Signers(TOPIC, d) + SignersIn(c, states)
  {
    forall i | i in SignersIn(c, states) ensures i in SignersIn(c, [d] + states) {
      var k :| 0 <= k < |states| && i in c.Signers(TOPIC, states[k]);
      assert ([d] + states)[k + 1] == states[k];
    }
    assert ([d] + states)[0] == d;
  }

  // ---- What acceptance means ----

  /** e follows from s by legal moves, each signed by the player on turn. */
  ghost predicate Reaches<P>(c: Context<P>, s: BoardState, e: BoardState) {
    exists path :: LegalPath(c, s, path) && c.Equivalent(EndState(s, path), e)
  }

  /** The participant signed a state from which e follows. */
  ghost predicate Agreed<P>(c: Context<P>, i: nat, e: BoardState) {
    exists d: SignedData :: i in c.Signers(TOPIC, d) && Reaches(c, d.data, e)
  }

  lemma PathFromEquivalent<P>(c: Context<P>, s: BoardState, t: BoardState, path: seq<StateTransition>)
    requires c.Lawful() && c.Equivalent(s, t) && LegalPath(c, s, path)
    ensures LegalPath(c, t, path) && c.Equivalent(EndState(t, path), EndState(s, path))
  {
    EquivalenceLaws(c, s, t);
    if path != [] {
      assert LegalStep(c, StateBefore(s, path, 0), path[0]);
      StepAlike(c, c.Parse(s).value, t, path[0]);
    }
    forall k | 0 <= k < |path| ensures LegalStep(c, StateBefore(t, path, k), path[k]) {
      assert LegalStep(c, StateBefore(s, path, k), path[k]);
    }
    PathEndParses(c, t, path);
    SelfEquivalent(c, EndState(t, path));
  }

  lemma SuffixPath<P>(c: Context<P>, start: BoardState, path: seq<StateTransition>, k: nat)
    requires c.Lawful() && LegalPath(c, start, path) && k <= |path|
    ensures LegalPath(c, StateBefore(start, path, k), path[k..])
    ensures EndState(StateBefore(start, path, k), path[k..]) == EndState(start, path)
  {
    hide Context.Lawful, LegalStep, Context.Parse;
    MidParses(c, start, path, k);
    var rest := path[k..];
    forall j | 0 <= j < |rest| ensures LegalStep(c, StateBefore(StateBefore(start, path, k), rest, j), rest[j]) {
      SuffixStep(c, start, path, k, j);
    }
  }

  lemma SuffixStep<P>(c: Context<P>, start: BoardState, path: seq<StateTransition>, k: nat, j: nat)
    requires LegalPath(c, start, path) && k + j < |path|
    ensures LegalStep(c, StateBefore(StateBefore(start, path, k), path[k..], j), path[k..][j])
  {
    hide LegalStep, Context.Parse;
    assert LegalStep(c, StateBefore(start, path, k + j), path[k + j]);
    assert path[k..][j] == path[k + j];
    assert j > 0 ==> path[k..][j - 1] == path[k + j - 1];
  }

  lemma MidParses<P>(c: Context<P>, start: BoardState, path: seq<StateTransition>, k: nat)
    requires c.Lawful() && LegalPath(c, start, path) && k <= |path|
    ensures c.Parse(StateBefore(start, path, k)).Some?
  {
    hide Context.Lawful, LegalStep;
    if k > 0 {
      assert LegalStep(c, StateBefore(start, path, k - 1), path[k - 1]);
      StepEndParses(c, StateBefore(start, path, k - 1), path[k - 1]);
    }
  }

  /**
   * An accepted proof's end state follows from the reinitialisation state by legal signed moves,
   * or every participant signed a state from which it follows by such moves.
   */
  lemma AcceptedProofIsAgreed<P>(c: Context<P>, reinit: BoardState, proof: StateProof)
    requires c.Lawful() && ValidProof(c, reinit, proof)
    ensures var e := UnverifiedProofEndState(proof);
      Reaches(c, reinit, e) || forall i: nat :: i < c.Size() ==> Agreed(c, i, e)
  {
    hide Context.Lawful, LegalStep, Context.Signers, States;
    var s, path := proof.initial.data, proof.transitions;
    var e := EndState(s, path);
    PathEndParses(c, s, path);
    SelfEquivalent(c, e);
    if c.Equivalent(s, reinit) {
      PathFromEquivalent(c, s, reinit, path);
    } else {
      forall i: nat | i < c.Size() ensures Agreed(c, i, e) {
        assert i in SignersIn(c, States(proof));
        var k :| 0 <= k < |States(proof)| && i in c.Signers(TOPIC, States(proof)[k]);
        StatesAt(proof);
        SuffixPath(c, s, path, k);
        assert Reaches(c, States(proof)[k].data, e);
      }
    }
  }

  /** One of the signatures on the data recovers to the participant's address, for this very reinitialisation. */
  ghost predicate IsSignedBy<P>(c: Context<P>, i: nat, d: SignedData)
    requires i < c.Size()
  {
    exists k :: 0 <= k < |d.signatures|
      && c.env.recover(c.env.message(c.id, c.meta.reinit, "state", d.data), d.signatures[k])
         == c.meta.participants[i].address
  }

  lemma SignersAreSigned<P>(c: Context<P>, i: nat, d: SignedData)
    requires i < c.Size()
    ensures i in c.Signers(TOPIC, d) <==> IsSignedBy(c, i, d)
  {
  }

  /**
   * In an accepted proof, each move is one that the board allows, leads to another encoding of its result,
   * and is signed by the player who was on turn before it.
   */
  lemma EveryMoveIsSigned<P>(c: Context<P>, reinit: BoardState, proof: StateProof, k: nat)
    requires ValidProof(c, reinit, proof) && k < |proof.transitions|
    ensures var before := if k == 0 then proof.initial.data else proof.transitions[k - 1].newState.data;
      var t := proof.transitions[k];
      && c.Parse(before).Some?
      && var p := c.Parse(before).value;
      && 0 <= c.env.whoseTurn(p) < c.Size() && IsSignedBy(c, c.env.whoseTurn(p), t.newState)
      && c.env.applyMove(p, t.move).Some?
      && var r := c.env.applyMove(p, t.move).value;
         c.Parse(r).Some? && c.env.equals(c.Parse(r).value, t.newState.data)
  {
    hide IsSignedBy, Covers, Context.Signers;
    var before, t := StateBefore(proof.initial.data, proof.transitions, k), proof.transitions[k];
    assert LegalStep(c, before, t);
    var turn := c.env.whoseTurn(c.Parse(before).value);
    var i :| i in c.Signers(TOPIC, t.newState) && i as int == turn;
    SignerInRange(c, t.newState, i);
    SignersAreSigned(c, i, t.newState);
  }

  lemma SignerInRange<P>(c: Context<P>, d: SignedData, i: nat)
    requires i in c.Signers(TOPIC, d)
    ensures i < c.Size()
  {
  }

  /** Unless it starts with the reinitialisation, every participant signed one of its states. */
  lemma EveryoneSignedOne<P>(c: Context<P>, reinit: BoardState, proof: StateProof, i: nat) returns (k: nat)
    requires ValidProof(c, reinit, proof) && i < c.Size() && !c.Equivalent(proof.initial.data, reinit)
    ensures k <= |proof.transitions|
    ensures IsSignedBy(c, i, if k == 0 then proof.initial else proof.transitions[k - 1].newState)
  {
    hide IsSignedBy, Context.Signers, LegalPath;
    assert i in SignersIn(c, States(proof));
    k :| 0 <= k < |States(proof)| && i in c.Signers(TOPIC, States(proof)[k]);
    StatesAt(proof);
    SignersAreSigned(c, i, States(proof)[k]);
  }

  // ---- Extension by a move ----

  /** The move can be made and signed: someone is on turn, the move is legal, the wallet signs. */
  predicate Extendable<P>(c: Context<P>, wallet: Wallet, proof: StateProof, mv: BoardMove)
    requires c.Parse(UnverifiedProofEndState(proof)).Some?
  {
    var p := c.Parse(UnverifiedProofEndState(proof)).value;
    var turn := c.env.whoseTurn(p);
    && 0 <= turn < c.Size()
    && c.env.applyMove(p, mv).Some?
    && wallet(c.meta.participants[turn].address, c.Message(TOPIC, c.env.applyMove(p, mv).value)).Some?
  }

  /** The new transition, signed by the player on turn. */
  function NewTransition<P>(c: Context<P>, wallet: Wallet, proof: StateProof, mv: BoardMove): StateTransition
    requires c.Parse(UnverifiedProofEndState(proof)).Some? && Extendable(c, wallet, proof, mv)
  {
    var p := c.Parse(UnverifiedProofEndState(proof)).value;
    var newState := c.env.applyMove(p, mv).value;
    var address := c.meta.participants[c.env.whoseTurn(p)].address;
    StateTransition(mv, SignedData(newState, [wallet(address, c.Message(TOPIC, newState)).value], false))
  }

  /** The whole chain as one list, the initial state as a transition without a move. */
  function FullChain(proof: StateProof, trans: StateTransition): seq<StateTransition> {
    [StateTransition("", proof.initial)] + proof.transitions + [trans]
  }

  function ProofFrom(chain: seq<StateTransition>, begin: nat): StateProof
    requires begin < |chain|
  {
    StateProof(chain[begin].newState, chain[begin + 1..])
  }

  /** begin is the latest start whose states carry everyone's signature, or the very start. */
  predicate MinimalStart<P>(c: Context<P>, chain: seq<StateTransition>, begin: nat) {
    && begin < |chain|
    && (begin > 0 ==> Covers(c, States(ProofFrom(chain, begin))))
    && forall j :: begin < j < |chain| ==> !Covers(c, States(ProofFrom(chain, j)))
  }

  /** The start that the search from the k-th element of the chain finds. */
  ghost function StartFrom<P>(c: Context<P>, chain: seq<StateTransition>, k: nat): (r: nat)
    requires k < |chain|
    ensures r <= k
  {
    if k == 0 || Covers(c, States(ProofFrom(chain, k))) then k else StartFrom(c, chain, k - 1)
  }

  /** There is exactly one minimal start. */
  lemma {:induction false} MinimalStartIs<P>(c: Context<P>, chain: seq<StateTransition>, k: nat, begin: nat)
    requires k < |chain| && MinimalStart(c, chain, begin) && begin <= k
    ensures begin == StartFrom(c, chain, k)
    decreases k
  {
    hide Covers, States;
    if begin < k {
      MinimalStartIs(c, chain, k - 1, begin);
    }
  }

  lemma {:induction false} StartIsMinimal<P>(c: Context<P>, chain: seq<StateTransition>, k: nat)
    requires k < |chain| && forall j :: k < j < |chain| ==> !Covers(c, States(ProofFrom(chain, j)))
    ensures MinimalStart(c, chain, StartFrom(c, chain, k))
    decreases k
  {
    hide Covers, States;
    if k > 0 && !Covers(c, States(ProofFrom(chain, k))) {
      StartIsMinimal(c, chain, k - 1);
    }
  }

  /** The proof that extension by a move gives: the minimal suffix of the full chain. */
  ghost function Extended<P>(c: Context<P>, wallet: Wallet, proof: StateProof, mv: BoardMove): StateProof
    requires c.Parse(UnverifiedProofEndState(proof)).Some? && Extendable(c, wallet, proof, mv)
  {
    var chain := FullChain(proof, NewTransition(c, wallet, proof, mv));
    ProofFrom(chain, StartFrom(c, chain, |chain| - 1))
  }

  /** Its start is minimal: no later one carries everyone's signature. */
  lemma ExtendedIsMinimal<P>(c: Context<P>, wallet: Wallet, proof: StateProof, mv: BoardMove) returns (begin: nat)
    requires c.Parse(UnverifiedProofEndState(proof)).Some? && Extendable(c, wallet, proof, mv)
    ensures var chain := FullChain(proof, NewTransition(c, wallet, proof, mv));
      MinimalStart(c, chain, begin) && Extended(c, wallet, proof, mv) == ProofFrom(chain, begin)
  {
    hide MinimalStart, NewTransition;
    var chain := FullChain(proof, NewTransition(c, wallet, proof, mv));
    StartIsMinimal(c, chain, |chain| - 1);
    begin := StartFrom(c, chain, |chain| - 1);
  }

  /** Goes back from the end of the chain until the signatures suffice or the chain begins. */
  method FindStart<P>(c: Context<P>, transitions: seq<StateTransition>) returns (begin: nat)
    requires transitions != []
    ensures begin < |transitions| && MinimalStart(c, transitions, begin)
  {
    hide Context.Signers, SignersIn, Covers, States;
    begin := |transitions| - 1;
    var n := c.Size();
    var signatures := VerifyParticipantSignatures(c, TOPIC, transitions[begin].newState);
    LastState(c, transitions);
    while true
      invariant begin < |transitions|
      invariant signatures == SignersIn(c, States(ProofFrom(transitions, begin)))
      invariant forall j :: begin < j < |transitions| ==> !Covers(c, States(ProofFrom(transitions, j)))
      decreases begin
    {
      AllSigned(c, States(ProofFrom(transitions, begin)));
      assert |signatures| <= n;
      if |signatures| == n || begin == 0 {
        break;
      }
      begin := begin - 1;
      var newSigs := VerifyParticipantSignatures(c, TOPIC, transitions[begin].newState);
      PrependState(c, transitions, begin);
      signatures := signatures + newSigs;
    }
  }

  method ExtendStateProof<P(!new)>(c: Context<P>, wallet: Wallet, oldProof: StateProof, mv: BoardMove)
      returns (ok: bool, newProof: StateProof)
    requires c.Lawful() && c.Parse(UnverifiedProofEndState(oldProof)).Some?
    ensures ok <==> Extendable(c, wallet, oldProof, mv)
    ensures ok ==> newProof == Extended(c, wallet, oldProof, mv)
    ensures ok ==> exists begin: nat ::
      && MinimalStart(c, FullChain(oldProof, NewTransition(c, wallet, oldProof, mv)), begin)
      && newProof == ProofFrom(FullChain(oldProof, NewTransition(c, wallet, oldProof, mv)), begin)
  {
    hide Context.Lawful, MinimalStart, StartFrom, Covers, Context.Parse;
    newProof := oldProof;
    var parsedOld := c.Parse(UnverifiedProofEndState(oldProof)).value;
    var turn := c.env.whoseTurn(parsedOld);
    TurnInRange(c, UnverifiedProofEndState(oldProof));
    if turn == NO_TURN {
      return false, newProof;
    }
    var newState := c.env.applyMove(parsedOld, mv);
    if newState.None? {
      return false, newProof;
    }
    var signed, ns := SignDataForParticipant(c, wallet, TOPIC, turn, SignedData(newState.value, [], false));
    if !signed {
      return false, newProof;
    }
    var trans := StateTransition(mv, ns);
    assert trans == NewTransition(c, wallet, oldProof, mv);

    var transitions := [StateTransition("", oldProof.initial)];
    for k := 0 to |oldProof.transitions|
      invariant transitions == [StateTransition("", oldProof.initial)] + oldProof.transitions[..k]
    {
      transitions := transitions + [oldProof.transitions[k]];
    }
    transitions := transitions + [trans];
    assert transitions == FullChain(oldProof, trans);

    var begin := FindStart(c, transitions);
    MinimalStartIs(c, transitions, |transitions| - 1, begin);

    newProof := StateProof(transitions[begin].newState, []);
    for k := begin + 1 to |transitions|
      invariant newProof == StateProof(transitions[begin].newState, transitions[begin + 1..k])
    {
      newProof := newProof.(transitions := newProof.transitions + [transitions[k]]);
    }
    ok := true;
  }

  lemma TurnInRange<P>(c: Context<P>, s: BoardState)
    requires c.Lawful() && c.Parse(s).Some?
    ensures c.env.whoseTurn(c.Parse(s).value) == NO_TURN || 0 <= c.env.whoseTurn(c.Parse(s).value) < c.Size()
  {
  }

  lemma LastState<P>(c: Context<P>, chain: seq<StateTransition>)
    requires chain != []
    ensures SignersIn(c, States(ProofFrom(chain, |chain| - 1))) == c.Signers(TOPIC, chain[|chain| - 1].newState)
  {
    NoSigners(c);
    SignersAppend(c, [], chain[|chain| - 1].newState);
    assert States(ProofFrom(chain, |chain| - 1)) == [] + [chain[|chain| - 1].newState];
  }

  lemma PrependState<P>(c: Context<P>, chain: seq<StateTransition>, k: nat)
    requires k + 1 < |chain|
    ensures SignersIn(c, States(ProofFrom(chain, k)))
         == c.Signers(TOPIC, chain[k].newState) + SignersIn(c, States(ProofFrom(chain, k + 1)))
  {
    SignersPrepend(c, chain[k].newState, States(ProofFrom(chain, k + 1)));
    assert States(ProofFrom(chain, k)) == [chain[k].newState] + States(ProofFrom(chain, k + 1));
  }

  function UpTo(n: nat): (r: set<nat>)
    ensures |r| == n && forall i: nat :: i in r <==> i < n
  {
    if n == 0 then {} else UpTo(n - 1) + {n - 1}
  }

  /** The number of collected signers tells whether everyone has signed. */
  lemma AllSigned<P>(c: Context<P>, states: seq<SignedData>)
    ensures |SignersIn(c, states)| <= c.Size()
    ensures |SignersIn(c, states)| == c.Size() <==> Covers(c, states)
  {
    SubsetCount(SignersIn(c, states), UpTo(c.Size()));
    if Covers(c, states) {
      forall i | i in UpTo(c.Size()) ensures i in SignersIn(c, states) {
      }
      assert UpTo(c.Size()) <= SignersIn(c, states);
      SubsetCount(UpTo(c.Size()), SignersIn(c, states));
    }
  }

  lemma ChainStates(proof: StateProof, trans: StateTransition, begin: nat)
    requires begin < |FullChain(proof, trans)|
    ensures begin == 0 ==> ProofFrom(FullChain(proof, trans), 0) == StateProof(proof.initial, proof.transitions + [trans])
    ensures UnverifiedProofEndState(ProofFrom(FullChain(proof, trans), begin)) == trans.newState.data
  {
    assert FullChain(proof, trans)[1..] == proof.transitions + [trans];
    assert FullChain(proof, trans)[|FullChain(proof, trans)| - 1] == trans;
  }

  /** The state that the new move leads to. */
  function ResultOf<P>(c: Context<P>, wallet: Wallet, proof: StateProof, mv: BoardMove): BoardState
    requires c.Parse(UnverifiedProofEndState(proof)).Some? && Extendable(c, wallet, proof, mv)
  {
    c.env.applyMove(c.Parse(UnverifiedProofEndState(proof)).value, mv).value
  }

  lemma NewTransitionLegal<P(!new)>(c: Context<P>, wallet: Wallet, proof: StateProof, mv: BoardMove)
    requires c.Lawful() && HonestWallet(c.env, wallet)
    requires c.Parse(UnverifiedProofEndState(proof)).Some? && Extendable(c, wallet, proof, mv)
    requires c.Parse(ResultOf(c, wallet, proof, mv)).Some?
    ensures LegalStep(c, UnverifiedProofEndState(proof), NewTransition(c, wallet, proof, mv))
  {
    var trans := NewTransition(c, wallet, proof, mv);
    var p := c.Parse(UnverifiedProofEndState(proof)).value;
    OwnSignatureCounts(c, wallet, TOPIC, c.env.whoseTurn(p), SignedData(trans.newState.data, [], false));
    assert [] + trans.newState.signatures == trans.newState.signatures;
    SelfEquivalent(c, trans.newState.data);
  }

  /** Signing one's move onto a legal chain keeps the chain legal. */
  lemma ExtendedPath<P(!new)>(c: Context<P>, wallet: Wallet, proof: StateProof, mv: BoardMove)
    requires c.Lawful() && HonestWallet(c.env, wallet)
    requires LegalPath(c, proof.initial.data, proof.transitions)
    requires c.Parse(UnverifiedProofEndState(proof)).Some? && Extendable(c, wallet, proof, mv)
    requires c.Parse(ResultOf(c, wallet, proof, mv)).Some?
    ensures LegalPath(c, proof.initial.data, proof.transitions + [NewTransition(c, wallet, proof, mv)])
  {
    hide Context.Lawful, LegalStep, Extendable, NewTransition, Context.Parse, ResultOf, HonestWallet;
    var path := proof.transitions + [NewTransition(c, wallet, proof, mv)];
    NewTransitionLegal(c, wallet, proof, mv);
    forall k | 0 <= k < |path| ensures LegalStep(c, StateBefore(proof.initial.data, path, k), path[k]) {
      if k < |proof.transitions| {
        assert LegalStep(c, StateBefore(proof.initial.data, proof.transitions, k), proof.transitions[k]);
      }
    }
  }

  /** From any start, the extended chain is a chain of legal moves to the new state. */
  lemma SuffixOfExtended<P(!new)>(c: Context<P>, wallet: Wallet, proof: StateProof, mv: BoardMove, begin: nat)
    requires c.Lawful() && HonestWallet(c.env, wallet)
    requires LegalPath(c, proof.initial.data, proof.transitions)
    requires c.Parse(UnverifiedProofEndState(proof)).Some? && Extendable(c, wallet, proof, mv)
    requires c.Parse(ResultOf(c, wallet, proof, mv)).Some?
    requires begin < |FullChain(proof, NewTransition(c, wallet, proof, mv))|
    ensures var newProof := ProofFrom(FullChain(proof, NewTransition(c, wallet, proof, mv)), begin);
      LegalPath(c, newProof.initial.data, newProof.transitions)
  {
    hide Context.Lawful, LegalStep, LegalPath, NewTransition, Extendable, ResultOf, Context.Parse;
    var trans := NewTransition(c, wallet, proof, mv);
    var chain, path := FullChain(proof, trans), proof.transitions + [trans];
    ExtendedPath(c, wallet, proof, mv);
    SuffixPath(c, proof.initial.data, path, begin);
    assert chain[1..] == path;
    assert chain[begin + 1..] == path[begin..];
    assert chain[begin].newState.data == StateBefore(proof.initial.data, path, begin);
  }

  /** The whole extended chain still starts from the reinitialisation, or carries all signatures. */
  lemma WholeChainCovers<P>(c: Context<P>, reinit: BoardState, proof: StateProof, trans: StateTransition)
    requires ValidProof(c, reinit, proof)
    ensures var newProof := ProofFrom(FullChain(proof, trans), 0);
      c.Equivalent(newProof.initial.data, reinit) || Covers(c, States(newProof))
  {
    hide LegalPath, Context.Signers;
    var chain := FullChain(proof, trans);
    ChainStates(proof, trans, 0);
    if !c.Equivalent(proof.initial.data, reinit) {
      SignersAppend(c, States(proof), trans.newState);
      assert States(proof) + [trans.newState] == States(ProofFrom(chain, 0));
    }
  }

  /** The proof built from any minimal start of an extended valid proof is itself valid. */
  lemma ExtendedProofIsValid<P(!new)>(
      c: Context<P>, wallet: Wallet, reinit: BoardState, proof: StateProof, mv: BoardMove, begin: nat)
    requires c.Lawful() && HonestWallet(c.env, wallet) && ValidProof(c, reinit, proof)
    requires c.Parse(UnverifiedProofEndState(proof)).Some? && Extendable(c, wallet, proof, mv)
    requires c.Parse(ResultOf(c, wallet, proof, mv)).Some?
    requires MinimalStart(c, FullChain(proof, NewTransition(c, wallet, proof, mv)), begin)
    ensures var newProof := ProofFrom(FullChain(proof, NewTransition(c, wallet, proof, mv)), begin);
      ValidProof(c, reinit, newProof) && UnverifiedProofEndState(newProof) == ResultOf(c, wallet, proof, mv)
  {
    hide Context.Lawful, LegalPath, Covers, Extendable, HonestWallet;
    var trans := NewTransition(c, wallet, proof, mv);
    ChainStates(proof, trans, begin);
    SuffixOfExtended(c, wallet, proof, mv, begin);
    if begin == 0 {
      WholeChainCovers(c, reinit, proof, trans);
    }
  }

  /** Extension keeps to the channel's protocol version. */
  lemma ExtendedProofIsVersioned(proof: StateProof, trans: StateTransition, begin: nat)
    requires CheckVersionedProto(proof) && !trans.newState.foreign
    requires begin < |FullChain(proof, trans)|
    ensures CheckVersionedProto(ProofFrom(FullChain(proof, trans), begin))
  {
    var chain := FullChain(proof, trans);
    forall k | 0 <= k < |chain| ensures !chain[k].newState.foreign {
      assert chain[k] == if k == 0 then StateTransition("", proof.initial)
        else if k <= |proof.transitions| then proof.transitions[k - 1] else trans;
    }
  }

  /**
   * The extended proof is the shortest that carries all signatures: none of its later states could
   * start a proof by itself, and it has to start with the old proof or be signed by everyone.
   */
  lemma ExtendedIsShortest<P>(c: Context<P>, wallet: Wallet, proof: StateProof, mv: BoardMove, j: nat)
    requires c.Parse(UnverifiedProofEndState(proof)).Some? && Extendable(c, wallet, proof, mv)
    ensures var extended := Extended(c, wallet, proof, mv);
      && (j < |extended.transitions| ==>
            !Covers(c, States(StateProof(extended.transitions[j].newState, extended.transitions[j + 1..]))))
      && (extended == StateProof(proof.initial, proof.transitions + [NewTransition(c, wallet, proof, mv)])
          || Covers(c, States(extended)))
  {
    hide NewTransition, Extendable, Context.Parse, States, Context.Signers, Covers, Extended;
    var trans := NewTransition(c, wallet, proof, mv);
    var chain, extended := FullChain(proof, trans), Extended(c, wallet, proof, mv);
    var begin := ExtendedIsMinimal(c, wallet, proof, mv);
    ChainStates(proof, trans, begin);
    if j < |extended.transitions| {
      assert !Covers(c, States(ProofFrom(chain, begin + 1 + j)));
      assert chain[begin + 1..][j + 1..] == chain[begin + 1 + j + 1..];
    }
  }
}
