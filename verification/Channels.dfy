/**
 * The data of game channels and the environment they run in: a game's board rules
 * (gamechannel/boardrules.hpp), message hashing and signature recovery.
 */
module Channels {
  import opened Wrappers

  type BoardState = string
  type BoardMove = string
  type ChannelId = string

  /** The source's unsigned int. */
  type Unsigned = n: nat | n < 0x1_0000_0000

  /** The turn value of states in which nobody is to move. */
  const NO_TURN: int := -1

  datatype Participant = Participant(name: string, address: string)
  datatype Metadata = Metadata(participants: seq<Participant>, reinit: string)

  /** Signed data; foreign marks fields that the channel's protocol version does not allow. */
  datatype SignedData = SignedData(data: BoardState, signatures: seq<string>, foreign: bool)
  datatype StateTransition = StateTransition(move: BoardMove, newState: SignedData)
  datatype StateProof = StateProof(initial: SignedData, transitions: seq<StateTransition>)

  /** A game's rules on parsed states P, and the chain's hashing and address recovery. */
  datatype Env<!P> = Env(
    parse: (ChannelId, Metadata, BoardState) -> Option<P>,
    equals: (P, BoardState) -> bool,
    whoseTurn: P -> int,
    turnCount: P -> Unsigned,
    applyMove: (P, BoardMove) -> Option<BoardState>,
    message: (ChannelId, string, string, string) -> string,
    recover: (string, string) -> string)

  /** A wallet signs a message for an address, or fails. */
  type Wallet = (string, string) -> Option<string>

  ghost predicate HonestWallet<P(!new)>(env: Env<P>, wallet: Wallet) {
    forall address, msg :: wallet(address, msg).Some? ==>
      env.recover(msg, wallet(address, msg).value) == address
  }

  /** A channel with fixed metadata. */
  datatype Context<!P> = Context(env: Env<P>, id: ChannelId, meta: Metadata) {
    function Parse(s: BoardState): Option<P> {
      env.parse(id, meta, s)
    }

    function Size(): nat {
      |meta.participants|
    }

    function Message(topic: string, data: string): string {
      env.message(id, meta.reinit, topic, data)
    }

    /** The participants for whom the data carries a valid signature. */
    function Signers(topic: string, d: SignedData): set<nat> {
      set i, k | 0 <= i < Size() && 0 <= k < |d.signatures|
        && env.recover(Message(topic, d.data), d.signatures[k]) == meta.participants[i].address :: i
    }

    /** s parses, and t is another encoding of the same state. */
    predicate Equivalent(s: BoardState, t: BoardState) {
      Parse(s).Some? && env.equals(Parse(s).value, t)
    }

    /** Two encodings of one state, or two that do not parse. */
    predicate SameResult(s: BoardState, t: BoardState) {
      (Parse(s).Some? <==> Parse(t).Some?) && (Parse(s).Some? ==> Equivalent(s, t))
    }

    /** Two parsed states that no operation of the rules tells apart. */
    ghost predicate Alike(p: P, q: P) {
      && (forall t :: env.equals(p, t) == env.equals(q, t))
      && env.whoseTurn(p) == env.whoseTurn(q)
      && env.turnCount(p) == env.turnCount(q)
      && (forall mv :: env.applyMove(p, mv).Some? == env.applyMove(q, mv).Some?)
      && (forall mv :: env.applyMove(p, mv).Some? ==>
            SameResult(env.applyMove(p, mv).value, env.applyMove(q, mv).value))
    }

    /**
     * What board rules promise: equality is a congruence, and turns are those of participants. It
     * is not assumed that the result of a move parses, which the source CHECKs.
     */
    ghost predicate Lawful() {
      && (forall s :: Parse(s).Some? ==> env.equals(Parse(s).value, s))
      && (forall s, t :: Equivalent(s, t) ==> Parse(t).Some? && Alike(Parse(s).value, Parse(t).value))
      && (forall s :: Parse(s).Some? ==>
            env.whoseTurn(Parse(s).value) == NO_TURN || 0 <= env.whoseTurn(Parse(s).value) < Size())
    }

    /** The move leads from p to a state that parses and has a higher turn count. */
    predicate MoveRises(p: P, mv: BoardMove) {
      var r := env.applyMove(p, mv);
      r.Some? && Parse(r.value).Some? && env.turnCount(Parse(r.value).value) > env.turnCount(p)
    }
  }

  /** The rules are lawful for every channel. */
  ghost predicate LawfulRules<P(!new)>(env: Env<P>) {
    forall id, meta :: Context(env, id, meta).Lawful()
  }

  /** No part of the proof uses fields outside the channel's protocol version. */
  predicate CheckVersionedProto(proof: StateProof) {
    !proof.initial.foreign && forall k :: 0 <= k < |proof.transitions| ==> !proof.transitions[k].newState.foreign
  }

  function UnverifiedProofEndState(proof: StateProof): BoardState {
    EndState(proof.initial.data, proof.transitions)
  }

  /** The last state of a chain of transitions from a given state. */
  function EndState(start: BoardState, path: seq<StateTransition>): BoardState {
    if path == [] then start else path[|path| - 1].newState.data
  }
}
