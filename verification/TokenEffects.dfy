/**
 * What each asset operation means for the owners (nonfungible/moveparser.cpp, moveprocessor.cpp): who
 * gains and who loses how much, that nobody else is affected, and exactly when it is accepted.
 */
module TokenEffects {
  import opened Wrappers
  import opened Tokens
  import opened TokenProofs

  /** No control characters. */
  predicate IsPlain(str: string) {
    forall c :: c in str ==> c >= ' '
  }

  function Owned(db: Db, name: string, a: Asset): int {
    Balance(db.balances, Key(name, a))
  }

  /** All balances but these two are the same. */
  ghost predicate OthersKeep(db: Db, t: Db, k: Key, l: Key) {
    forall j :: j != k && j != l ==> Balance(t.balances, j) == Balance(db.balances, j)
  }

  /** A transfer moves the amount from the sender to the recipient. */
  lemma TransferEffect(db: Db, name: string, a: Asset, n: int, r: string)
    ensures var t := ApplyOperation(db, name, Transfer(a, n, r));
      if IsPlain(a.minter) && IsPlain(a.name) && 0 < n <= 0x1000_0000_0000_0000 && n <= Owned(db, name, a) then
        && EffectOn(db, name, Transfer(a, n, r)).Some?
        && t.assets == db.assets && OthersKeep(db, t, Key(name, a), Key(r, a))
        && (r != name ==> Owned(t, name, a) == Owned(db, name, a) - n && Owned(t, r, a) == Owned(db, r, a) + n)
        && (r == name ==> t == db)
      else EffectOn(db, name, Transfer(a, n, r)).None? && t == db
  {
    PlainNames(a);
  }

  /** A burn takes the amount from the sender, and nobody gets it. */
  lemma BurnEffect(db: Db, name: string, a: Asset, n: int)
    ensures var t := ApplyOperation(db, name, Burn(a, n));
      if IsPlain(a.minter) && IsPlain(a.name) && 0 < n <= 0x1000_0000_0000_0000 && n <= Owned(db, name, a) then
        && EffectOn(db, name, Burn(a, n)).Some?
        && t.assets == db.assets && OthersKeep(db, t, Key(name, a), Key(name, a))
        && Owned(t, name, a) == Owned(db, name, a) - n
      else EffectOn(db, name, Burn(a, n)).None? && t == db
  {
    PlainNames(a);
  }

  /** A mint creates the sender's own asset of that name, once, and gives the sender the supply. */
  lemma MintEffect(db: Db, name: string, assetName: string, supply: int, data: Option<string>)
    ensures var a, t := Asset(name, assetName), ApplyOperation(db, name, Mint(assetName, supply, data));
      if IsPlain(assetName) && 0 <= supply <= 0x1000_0000_0000_0000 && a !in db.assets then
        && EffectOn(db, name, Mint(assetName, supply, data)).Some?
        && t.assets.Keys == db.assets.Keys + {a} && t.assets[a] == data
        && (forall b :: b in db.assets ==> t.assets[b] == db.assets[b])
        && OthersKeep(db, t, Key(name, a), Key(name, a)) && Owned(t, name, a) == Owned(db, name, a) + supply
      else EffectOn(db, name, Mint(assetName, supply, data)).None? && t == db
  {
    PlainNames(Asset("", assetName));
  }

  lemma MalformedEffect(db: Db, name: string)
    ensures EffectOn(db, name, Malformed).None? && ApplyOperation(db, name, Malformed) == db
  {
  }

  lemma PlainNames(a: Asset)
    ensures IsValidAsset(a) <==> IsPlain(a.minter) && IsPlain(a.name)
    ensures IsValidName(a.name) <==> IsPlain(a.name)
  {
    PlainIsValid(a.minter);
    PlainIsValid(a.name);
  }

  lemma PlainIsValid(str: string)
    ensures IsValidName(str) <==> IsPlain(str)
  {
    if IsValidName(str) {
      forall c | c in str ensures c >= ' ' {
        var k :| 0 <= k < |str| && str[k] == c;
      }
    } else {
      var k :| 0 <= k < |str| && (str[k] as int) < 0x20;
      assert str[k] in str;
    }
  }

  /** An array of operations is applied one by one, and so are the moves of a block. */
  lemma OperationsInOrder(db: Db, name: string, op: Operation, ops: seq<Operation>)
    ensures ApplyMoves(db, [Move(name, Single(op))]) == ApplyOperation(db, name, op)
    ensures ApplyMoves(db, [Move(name, NotAMove)]) == db
    ensures ApplyMoves(db, [Move(name, Batch([]))]) == db
    ensures ApplyMoves(db, [Move(name, Batch([op] + ops))])
         == ApplyMoves(ApplyOperation(db, name, op), [Move(name, Batch(ops))])
  {
    OneMove(db, Move(name, Single(op)));
    OneMove(db, Move(name, NotAMove));
    OneMove(db, Move(name, Batch([])));
    OneMove(db, Move(name, Batch([op] + ops)));
    OneMove(ApplyOperation(db, name, op), Move(name, Batch(ops)));
    OneOperation(db, name, op);
    FirstOperation(db, name, op, ops);
  }

  lemma OneMove(db: Db, mv: Move)
    ensures ApplyMoves(db, [mv]) == ApplyOperations(db, mv.name, Operations(mv.data))
  {
    assert [mv][..0] == [];
    assert ApplyMoves(db, []) == db;
  }

  lemma OneOperation(db: Db, name: string, op: Operation)
    ensures ApplyOperations(db, name, [op]) == ApplyOperation(db, name, op)
  {
    assert [op][..0] == [];
    assert ApplyOperations(db, name, []) == db;
  }

  lemma {:induction false} FirstOperation(db: Db, name: string, op: Operation, ops: seq<Operation>)
    ensures ApplyOperations(db, name, [op] + ops) == ApplyOperations(ApplyOperation(db, name, op), name, ops)
  {
    hide ApplyOperation;
    if ops == [] {
      assert [op] + ops == [op];
      OneOperation(db, name, op);
    } else {
      var m := |ops| - 1;
      FirstOperation(db, name, op, ops[..m]);
      assert ([op] + ops)[..m + 1] == [op] + ops[..m];
    }
  }
}
