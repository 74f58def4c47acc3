/** Participant signatures on channel data (gamechannel/signatures.cpp). */
module Signatures {
  import opened Wrappers
  import opened Channels

  /** Recovers all addresses first, then looks up which participants are among them. */
  method VerifyParticipantSignatures<P>(c: Context<P>, topic: string, d: SignedData) returns (res: set<nat>)
    ensures res == c.Signers(topic, d)
  {
    var msg := c.Message(topic, d.data);
    var addresses: set<string> := {};
    for k := 0 to |d.signatures|
      invariant forall a :: a in addresses <==> exists j :: 0 <= j < k && c.env.recover(msg, d.signatures[j]) == a
    {
      addresses := addresses + {c.env.recover(msg, d.signatures[k])};
    }
    res := {};
    for i := 0 to c.Size()
      invariant forall p :: p in res <==> p in c.Signers(topic, d) && p < i
    {
      if c.meta.participants[i].address in addresses {
        res := res + {i};
      }
    }
  }

  /** Adds a signature by the participant, if the wallet can make one. */
  method SignDataForParticipant<P(!new)>(c: Context<P>, wallet: Wallet, topic: string, index: nat, data: SignedData)
      returns (ok: bool, signed: SignedData)
    requires index < c.Size()
    ensures var sgn := wallet(c.meta.participants[index].address, c.Message(topic, data.data));
      && (ok <==> sgn.Some?)
      && signed == if sgn.Some? then data.(signatures := data.signatures + [sgn.value]) else data
  {
    var sgn := wallet(c.meta.participants[index].address, c.Message(topic, data.data));
    if sgn.None? {
      return false, data;
    }
    return true, data.(signatures := data.signatures + [sgn.value]);
  }

  /** A signature made by an honest wallet is recognised as the participant's. */
  lemma OwnSignatureCounts<P(!new)>(c: Context<P>, wallet: Wallet, topic: string, index: nat, data: SignedData)
    requires HonestWallet(c.env, wallet) && index < c.Size()
    requires wallet(c.meta.participants[index].address, c.Message(topic, data.data)).Some?
    ensures var sgn := wallet(c.meta.participants[index].address, c.Message(topic, data.data)).value;
      index in c.Signers(topic, data.(signatures := data.signatures + [sgn]))
  {
    var sgn := wallet(c.meta.participants[index].address, c.Message(topic, data.data)).value;
    var signed := data.(signatures := data.signatures + [sgn]);
    assert signed.signatures[|data.signatures|] == sgn;
  }
}
