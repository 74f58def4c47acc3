/**
 * The processors of asset moves that work in place: on the database (nonfungible/moveprocessor.cpp)
 * and on the pending state (nonfungible/pending.cpp), with the parser's loop over batches
 * (nonfungible/moveparser.cpp).
 */
module TokenLedger {
  import opened Wrappers
  import opened Tokens
  import opened TokenProofs

  class MoveProcessor {
    var assets: map<Asset, Option<string>>
    var balances: map<Key, int>
    /** The valid operations since the tables were empty. */
    ghost var history: seq<Effect>

    constructor ()
      ensures Valid() && Value() == TokenProofs.EMPTY && history == []
    {
      assets, balances, history := map[], map[], [];
      new;
      SupplyIsConserved([]);
    }

    ghost function Value(): Db
      reads this
    {
      Db(assets, balances)
    }

    ghost predicate Valid()
      reads this
    {
      Conserved(Value(), history)
    }

    function GetBalance(a: Asset, name: string): int
      reads this
    {
      Balance(balances, Key(name, a))
    }

    /** The caller makes sure that the new balance is an amount, which the source CHECKs. */
    method UpdateBalance(a: Asset, name: string, num: int)
      requires IsAmount(GetBalance(a, name) + num)
      modifies this`balances
      ensures balances == UpdateRow(old(balances), Key(name, a), num)
    {
      var newBalance := GetBalance(a, name) + num;
      if newBalance == 0 {
        balances := balances - {Key(name, a)};
      } else {
        balances := balances[Key(name, a) := newBalance];
      }
    }

    method ProcessMint(a: Asset, supply: int, data: Option<string>)
      requires IsAmount(supply) && InRange(Value(), Minted(a, supply, data))
      modifies this`assets, this`balances
      ensures Value() == Apply(old(Value()), Minted(a, supply, data))
    {
      assert a !in assets;
      assets := assets[a := data];
      if supply > 0 {
        UpdateBalance(a, a.minter, supply);
      }
    }

    method ProcessTransfer(a: Asset, num: int, sender: string, recipient: string)
      requires InRange(Value(), Sent(a, num, sender, recipient))
      modifies this`balances
      ensures Value() == Apply(old(Value()), Sent(a, num, sender, recipient))
    {
      UpdateBalance(a, sender, -num);
      UpdateBalance(a, recipient, num);
    }

    method ProcessBurn(a: Asset, num: int, sender: string)
      requires InRange(Value(), Burnt(a, num, sender))
      modifies this`balances
      ensures Value() == Apply(old(Value()), Burnt(a, num, sender))
    {
      UpdateBalance(a, sender, -num);
    }

    method HandleOperation(name: string, op: Operation)
      requires Valid()
      modifies this
      ensures Valid() && Value() == ApplyOperation(old(Value()), name, op)
    {
      hide Conserved, Apply, InRange, Validate;
      var a := Subject(name, op);
      var e := Validate(name, op, a in assets, GetBalance(a, name));
      if e.None? {
        return;
      }
      EffectsInRange(Value(), history, name, op);
      EffectConserves(Value(), history, name, op);
      history := history + [e.value];
      match e.value
      case Minted(b, supply, data) => ProcessMint(b, supply, data);
      case Sent(b, n, sender, recipient) => ProcessTransfer(b, n, sender, recipient);
      case Burnt(b, n, sender) => ProcessBurn(b, n, sender);
    }

    method ProcessOne(mv: Move)
      requires Valid()
      modifies this
      ensures Valid() && Value() == ApplyOperations(old(Value()), mv.name, Operations(mv.data))
    {
      hide Conserved, ApplyOperation;
      var ops := Operations(mv.data);
      for i := 0 to |ops|
        invariant Valid() && Value() == ApplyOperations(old(Value()), mv.name, ops[..i])
      {
        assert ops[..i + 1][..i] == ops[..i];
        HandleOperation(mv.name, ops[i]);
      }
      assert ops[..|ops|] == ops;
    }

    /** The whole block is applied, and no CHECK on a balance or a new asset fails. */
    method ProcessAll(moves: seq<Move>)
      requires Valid()
      modifies this
      ensures Valid() && Value() == ApplyMoves(old(Value()), moves)
    {
      hide Conserved, ApplyOperations;
      for i := 0 to |moves|
        invariant Valid() && Value() == ApplyMoves(old(Value()), moves[..i])
      {
        assert moves[..i + 1][..i] == moves[..i];
        ProcessOne(moves[i]);
      }
      assert moves[..|moves|] == moves;
    }
  }

  class PendingState {
    var assets: map<Asset, Option<string>>
    var balances: map<Key, int>

    constructor ()
      ensures Value() == NO_CHANGES
    {
      assets, balances := map[], map[];
    }

    ghost function Value(): Overlay
      reads this
    {
      Overlay(assets, balances)
    }

    predicate IsNewAsset(a: Asset)
      reads this
    {
      a in assets
    }

    method AddAsset(a: Asset, data: Option<string>)
      requires !IsNewAsset(a)
      modifies this`assets
      ensures assets == old(assets)[a := data]
    {
      assets := assets[a := data];
    }

    function GetBalance(a: Asset, name: string): Option<int>
      reads this
    {
      if Key(name, a) in balances then Some(balances[Key(name, a)]) else None
    }

    method SetBalance(a: Asset, name: string, balance: int)
      modifies this`balances
      ensures balances == old(balances)[Key(name, a) := balance]
    {
      balances := balances[Key(name, a) := balance];
    }
  }

  /** Validates moves against the database as changed by the pending state, and updates the latter. */
  class PendingStateUpdater {
    const db: Db
    const state: PendingState

    constructor (db: Db, state: PendingState)
      ensures this.db == db && this.state == state
    {
      this.db, this.state := db, state;
    }

    predicate AssetExists(a: Asset)
      reads state
      ensures AssetExists(a) == Tokens.AssetExists(db, state.Value(), a)
    {
      state.IsNewAsset(a) || a in db.assets
    }

    function GetBalance(a: Asset, name: string): (b: int)
      reads state
      ensures b == Tokens.GetBalance(db, state.Value(), Key(name, a))
    {
      state.GetBalance(a, name).GetOr(Balance(db.balances, Key(name, a)))
    }

    method UpdateBalance(a: Asset, name: string, num: int)
      modifies state`balances
      ensures state.Value() == UpdateOverlay(db, old(state.Value()), Key(name, a), num)
    {
      state.SetBalance(a, name, GetBalance(a, name) + num);
    }

    method ProcessMint(a: Asset, supply: int, data: Option<string>)
      requires !state.IsNewAsset(a)
      modifies state
      ensures state.Value() == ApplyPending(db, old(state.Value()), Minted(a, supply, data))
    {
      state.AddAsset(a, data);
      if supply > 0 {
        UpdateBalance(a, a.minter, supply);
      }
    }

    method ProcessTransfer(a: Asset, num: int, sender: string, recipient: string)
      modifies state`balances
      ensures state.Value() == ApplyPending(db, old(state.Value()), Sent(a, num, sender, recipient))
    {
      UpdateBalance(a, sender, -num);
      UpdateBalance(a, recipient, num);
    }

    method ProcessBurn(a: Asset, num: int, sender: string)
      modifies state`balances
      ensures state.Value() == ApplyPending(db, old(state.Value()), Burnt(a, num, sender))
    {
      UpdateBalance(a, sender, -num);
    }

    method HandleOperation(name: string, op: Operation)
      modifies state
      ensures state.Value() == PendingOperation(db, old(state.Value()), name, op)
    {
      hide ApplyPending, Validate;
      var a := Subject(name, op);
      var e := Validate(name, op, AssetExists(a), GetBalance(a, name));
      if e.None? {
        return;
      }
      match e.value
      case Minted(b, supply, data) => ProcessMint(b, supply, data);
      case Sent(b, n, sender, recipient) => ProcessTransfer(b, n, sender, recipient);
      case Burnt(b, n, sender) => ProcessBurn(b, n, sender);
    }

    method ProcessOne(mv: Move)
      modifies state
      ensures state.Value() == PendingOperations(db, old(state.Value()), mv.name, Operations(mv.data))
    {
      hide PendingOperation;
      var ops := Operations(mv.data);
      for i := 0 to |ops|
        invariant state.Value() == PendingOperations(db, old(state.Value()), mv.name, ops[..i])
      {
        assert ops[..i + 1][..i] == ops[..i];
        HandleOperation(mv.name, ops[i]);
      }
      assert ops[..|ops|] == ops;
    }
  }

  /** The tracker of pending moves on one confirmed state. */
  class PendingTracker {
    const db: Db
    var state: PendingState
    /** The moves added since the state was last cleared. */
    ghost var added: seq<Move>

    constructor (db: Db)
      ensures this.db == db && Valid() && added == [] && fresh(state)
    {
      this.db := db;
      state := new PendingState();
      added := [];
    }

    /** The pending state is what the moves added so far make of an empty one. */
    ghost predicate Valid()
      reads this, state
    {
      state.Value() == PendingMoves(db, NO_CHANGES, added)
    }

    method Clear()
      modifies this
      ensures Valid() && added == [] && fresh(state)
    {
      state := new PendingState();
      added := [];
    }

    /** The view after the move is that of a database to which all moves added so far were applied. */
    method AddPendingMove(mv: Move)
      requires Valid()
      modifies this`added, state
      ensures Valid() && added == old(added) + [mv]
      ensures Agrees(db, state.Value(), ApplyMoves(db, added))
    {
      hide PendingOperations, Agrees;
      var updater := new PendingStateUpdater(db, state);
      updater.ProcessOne(mv);
      assert (added + [mv])[..|added|] == added;
      added := added + [mv];
      OverlayAgrees(db, added);
    }
  }
}
