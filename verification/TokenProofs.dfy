/**
 * What holds of the asset ledger: the pending overlay agrees with really applying the moves, and
 * the supply of each asset is conserved.
 */
module TokenProofs {
  import opened Wrappers
  import opened Counting
  import opened Tokens

  // ---- The overlay simulates the database ----

  /** Seen through the overlay, the database looks as the other one does. */
  ghost predicate Agrees(db: Db, p: Overlay, applied: Db) {
    && applied.assets == db.assets + p.assets
    && forall k :: GetBalance(db, p, k) == Balance(applied.balances, k)
  }

  lemma UpdateAgrees(db: Db, p: Overlay, applied: Db, k: Key, num: int)
    requires Agrees(db, p, applied)
    ensures Agrees(db, UpdateOverlay(db, p, k, num), applied.(balances := UpdateRow(applied.balances, k, num)))
  {
    forall j
      ensures GetBalance(db, UpdateOverlay(db, p, k, num), j) == Balance(UpdateRow(applied.balances, k, num), j)
    {
      assert GetBalance(db, p, j) == Balance(applied.balances, j);
    }
  }

  lemma EffectAgrees(db: Db, p: Overlay, applied: Db, e: Effect)
    requires Agrees(db, p, applied)
    ensures Agrees(db, ApplyPending(db, p, e), Apply(applied, e))
  {
    hide UpdateRow, UpdateOverlay;
    match e
    case Minted(a, supply, data) =>
      var q, next := p.(assets := p.assets[a := data]), applied.(assets := applied.assets[a := data]);
      assert next.assets == db.assets + q.assets;
      assert forall k :: GetBalance(db, q, k) == GetBalance(db, p, k);
      UpdateAgrees(db, q, next, Key(a.minter, a), supply);
    case Sent(a, n, sender, recipient) =>
      UpdateAgrees(db, p, applied, Key(sender, a), -n);
      UpdateAgrees(db, UpdateOverlay(db, p, Key(sender, a), -n),
        applied.(balances := UpdateRow(applied.balances, Key(sender, a), -n)), Key(recipient, a), n);
    case Burnt(a, n, sender) =>
      UpdateAgrees(db, p, applied, Key(sender, a), -n);
  }

  /** Both accept the same operations, and keep agreeing. */
  lemma OperationAgrees(db: Db, p: Overlay, applied: Db, name: string, op: Operation)
    requires Agrees(db, p, applied)
    ensures PendingEffect(db, p, name, op) == EffectOn(applied, name, op)
    ensures Agrees(db, PendingOperation(db, p, name, op), ApplyOperation(applied, name, op))
  {
    hide Apply, ApplyPending;
    var a := Subject(name, op);
    assert AssetExists(db, p, a) <==> a in applied.assets;
    assert GetBalance(db, p, Key(name, a)) == Balance(applied.balances, Key(name, a));
    var e := EffectOn(applied, name, op);
    if e.Some? {
      EffectAgrees(db, p, applied, e.value);
    }
  }

  lemma {:induction false} OperationsAgree(db: Db, p: Overlay, applied: Db, name: string, ops: seq<Operation>)
    requires Agrees(db, p, applied)
    ensures Agrees(db, PendingOperations(db, p, name, ops), ApplyOperations(applied, name, ops))
  {
    hide Agrees, PendingOperation, ApplyOperation;
    if ops != [] {
      var m := |ops| - 1;
      OperationsAgree(db, p, applied, name, ops[..m]);
      OperationAgrees(db, PendingOperations(db, p, name, ops[..m]), ApplyOperations(applied, name, ops[..m]), name, ops[m]);
    }
  }

  /** For every list of moves and every database, the pending view is the state after the moves. */
  lemma {:induction false} OverlayAgrees(db: Db, moves: seq<Move>)
    ensures Agrees(db, PendingMoves(db, NO_CHANGES, moves), ApplyMoves(db, moves))
  {
    if moves == [] {
      assert db.assets + map[] == db.assets;
    } else {
      hide Agrees;
      var m := |moves| - 1;
      OverlayAgrees(db, moves[..m]);
      OperationsAgree(db, PendingMoves(db, NO_CHANGES, moves[..m]), ApplyMoves(db, moves[..m]),
        moves[m].name, Operations(moves[m].data));
    }
  }

  // ---- Conservation ----

  /** How much of an asset all owners have together. */
  ghost function Total(balances: map<Key, int>, a: Asset): int {
    SumOver(balances.Keys, k => Share(balances, a, k))
  }

  function Share(balances: map<Key, int>, a: Asset, k: Key): int {
    if k.asset == a then Balance(balances, k) else 0
  }

  /** The valid operations of a list of moves, in order. */
  function EffectsOfOperations(db: Db, name: string, ops: seq<Operation>): seq<Effect> {
    if ops == [] then []
    else
      var m := |ops| - 1;
      var e := EffectOn(ApplyOperations(db, name, ops[..m]), name, ops[m]);
      EffectsOfOperations(db, name, ops[..m]) + (if e.Some? then [e.value] else [])
  }

  function Effects(db: Db, moves: seq<Move>): seq<Effect> {
    if moves == [] then []
    else
      var last := moves[|moves| - 1];
      var before := moves[..|moves| - 1];
      Effects(db, before) + EffectsOfOperations(ApplyMoves(db, before), last.name, Operations(last.data))
  }

  function MintedBy(e: Effect, a: Asset): int {
    if e.Minted? && e.asset == a then e.supply else 0
  }

  function BurntBy(e: Effect, a: Asset): int {
    if e.Burnt? && e.asset == a then e.n else 0
  }

  function MintedSupply(es: seq<Effect>, a: Asset): int {
    if es == [] then 0 else MintedSupply(es[..|es| - 1], a) + MintedBy(es[|es| - 1], a)
  }

  function BurntSupply(es: seq<Effect>, a: Asset): int {
    if es == [] then 0 else BurntSupply(es[..|es| - 1], a) + BurntBy(es[|es| - 1], a)
  }

  /** Balances are positive amounts of existing assets, and of each asset there is minted minus burnt. */
  ghost predicate Conserved(db: Db, es: seq<Effect>) {
    && (forall k :: k in db.balances ==> 0 < db.balances[k] && k.asset in db.assets)
    && (forall a :: SupplyRight(db, es, a))
  }

  ghost predicate SupplyRight(db: Db, es: seq<Effect>, a: Asset) {
    && Total(db.balances, a) == MintedSupply(es, a) - BurntSupply(es, a)
    && 0 <= Total(db.balances, a) <= MintedSupply(es, a) <= MAX_AMOUNT
    && (a !in db.assets ==> MintedSupply(es, a) == BurntSupply(es, a) == 0)
  }

  lemma UpdateTotal(balances: map<Key, int>, k: Key, num: int, a: Asset)
    ensures Total(UpdateRow(balances, k, num), a) == Total(balances, a) + (if k.asset == a then num else 0)
  {
    var t := UpdateRow(balances, k, num);
    SumChange(balances.Keys, j => Share(balances, a, j), j => Share(t, a, j), k);
    if k !in t {
      assert t.Keys + {k} == balances.Keys + {k};
      assert t.Keys - {k} == t.Keys;
      SumPick(t.Keys + {k}, j => Share(t, a, j), k);
    } else {
      assert t.Keys == balances.Keys + {k};
    }
  }

  /** Nobody owns more of an asset than there is. */
  lemma {:induction false} ShareOfTotal(balances: map<Key, int>, k: Key)
    requires forall j :: j in balances ==> balances[j] >= 0
    ensures 0 <= Balance(balances, k) <= Total(balances, k.asset)
  {
    SharesSum(balances, balances.Keys, k.asset);
    if k in balances {
      SumPick(balances.Keys, j => Share(balances, k.asset, j), k);
      SharesSum(balances, balances.Keys - {k}, k.asset);
    }
  }

  lemma {:induction false} SharesSum(balances: map<Key, int>, keys: set<Key>, a: Asset)
    requires forall j :: j in balances ==> balances[j] >= 0
    ensures SumOver(keys, j => Share(balances, a, j)) >= 0
    decreases |keys|
  {
    if keys != {} {
      var k :| k in keys;
      SumPick(keys, j => Share(balances, a, j), k);
      SharesSum(balances, keys - {k}, a);
    }
  }

  /** A valid operation: no CHECK on a balance fails, before or after either of its two updates. */
  ghost predicate InRange(db: Db, e: Effect) {
    match e
    case Minted(a, supply, _) =>
      a !in db.assets && IsAmount(Balance(db.balances, Key(a.minter, a)) + supply)
    case Sent(a, n, sender, recipient) =>
      var b := UpdateRow(db.balances, Key(sender, a), -n);
      && IsAmount(Balance(db.balances, Key(sender, a)) - n)
      && IsAmount(Balance(b, Key(recipient, a)) + n)
    case Burnt(a, n, sender) => IsAmount(Balance(db.balances, Key(sender, a)) - n)
  }

  lemma EffectsInRange(db: Db, es: seq<Effect>, name: string, op: Operation)
    requires Conserved(db, es) && EffectOn(db, name, op).Some?
    ensures InRange(db, EffectOn(db, name, op).value)
  {
    hide Total;
    var e := EffectOn(db, name, op).value;
    var a := e.asset;
    assert SupplyRight(db, es, a);
    match e
    case Minted(_, supply, _) => ShareOfTotal(db.balances, Key(a.minter, a));
    case Sent(_, n, sender, recipient) =>
      var b := UpdateRow(db.balances, Key(sender, a), -n);
      ShareOfTotal(db.balances, Key(sender, a));
      UpdateTotal(db.balances, Key(sender, a), -n, a);
      ShareOfTotal(b, Key(recipient, a));
    case Burnt(_, n, sender) => ShareOfTotal(db.balances, Key(sender, a));
  }

  lemma EffectTotals(db: Db, e: Effect, a: Asset)
    requires e.Minted? ==> e.supply >= 0
    ensures Total(Apply(db, e).balances, a) == Total(db.balances, a) + MintedBy(e, a) - BurntBy(e, a)
  {
    hide Total, UpdateRow;
    match e
    case Minted(b, supply, _) => UpdateTotal(db.balances, Key(b.minter, b), supply, a);
    case Sent(b, n, sender, recipient) =>
      UpdateTotal(db.balances, Key(sender, b), -n, a);
      UpdateTotal(UpdateRow(db.balances, Key(sender, b), -n), Key(recipient, b), n, a);
    case Burnt(b, n, sender) => UpdateTotal(db.balances, Key(sender, b), -n, a);
  }

  lemma SupplyNext(es: seq<Effect>, e: Effect, a: Asset)
    ensures MintedSupply(es + [e], a) == MintedSupply(es, a) + MintedBy(e, a)
    ensures BurntSupply(es + [e], a) == BurntSupply(es, a) + BurntBy(e, a)
  {
    assert (es + [e])[..|es|] == es;
  }

  lemma EffectConserves(db: Db, es: seq<Effect>, name: string, op: Operation)
    requires Conserved(db, es) && EffectOn(db, name, op).Some?
    ensures Conserved(Apply(db, EffectOn(db, name, op).value), es + [EffectOn(db, name, op).value])
  {
    hide Total, MintedSupply, BurntSupply, Validate;
    var e := EffectOn(db, name, op).value;
    var t := Apply(db, e);
    RowsStay(db, es, name, op);
    forall a ensures SupplyRight(t, es + [e], a) {
      EffectTotals(db, e, a);
      SupplyNext(es, e, a);
      assert SupplyRight(db, es, a);
      ShareOfTotal(t.balances, Key("", a));
      OwnedExists(db, es, name, e);
    }
  }

  /** Only assets that exist can be sent or burnt. */
  lemma OwnedExists(db: Db, es: seq<Effect>, name: string, e: Effect)
    requires Conserved(db, es)
    requires !e.Minted? ==> 0 < e.n <= Balance(db.balances, Key(name, e.asset))
    ensures !e.Minted? ==> e.asset in db.assets
  {
  }

  lemma RowsStay(db: Db, es: seq<Effect>, name: string, op: Operation)
    requires Conserved(db, es) && EffectOn(db, name, op).Some?
    ensures var t := Apply(db, EffectOn(db, name, op).value);
      forall k :: k in t.balances ==> 0 < t.balances[k] && k.asset in t.assets
  {
    hide Total, MintedSupply, BurntSupply;
    EffectsInRange(db, es, name, op);
    OwnedExists(db, es, name, EffectOn(db, name, op).value);
  }

  lemma {:induction false} OperationsConserve(db: Db, es: seq<Effect>, name: string, ops: seq<Operation>)
    requires Conserved(db, es)
    ensures Conserved(ApplyOperations(db, name, ops), es + EffectsOfOperations(db, name, ops))
  {
    hide Conserved, Apply, EffectOn;
    if ops == [] {
      assert es + [] == es;
    } else {
      var m := |ops| - 1;
      OperationsConserve(db, es, name, ops[..m]);
      var before, es' := ApplyOperations(db, name, ops[..m]), es + EffectsOfOperations(db, name, ops[..m]);
      var e := EffectOn(before, name, ops[m]);
      if e.Some? {
        EffectConserves(before, es', name, ops[m]);
        assert es' + [e.value] == es + EffectsOfOperations(db, name, ops);
      } else {
        assert es' == es + EffectsOfOperations(db, name, ops);
      }
    }
  }

  const EMPTY := Db(map[], map[])

  /** After every sequence of moves, of each asset there is exactly what was minted and not burnt. */
  lemma {:induction false} SupplyIsConserved(moves: seq<Move>)
    ensures Conserved(ApplyMoves(EMPTY, moves), Effects(EMPTY, moves))
  {
    if moves != [] {
      hide Conserved;
      var m := |moves| - 1;
      SupplyIsConserved(moves[..m]);
      OperationsConserve(ApplyMoves(EMPTY, moves[..m]), Effects(EMPTY, moves[..m]), moves[m].name,
        Operations(moves[m].data));
    }
  }

  lemma {:induction false} MovesInTwoParts(db: Db, moves: seq<Move>, more: seq<Move>)
    ensures ApplyMoves(db, moves + more) == ApplyMoves(ApplyMoves(db, moves), more)
    decreases |more|
  {
    if more == [] {
      assert moves + more == moves;
    } else {
      var m := |more| - 1;
      assert (moves + more)[..|moves + more| - 1] == moves + more[..m];
      MovesInTwoParts(db, moves, more[..m]);
    }
  }

  /** On top of any confirmed history, pending balances are those after confirming the moves, and in range. */
  lemma PendingInRange(confirmed: seq<Move>, moves: seq<Move>, k: Key)
    ensures var db := ApplyMoves(EMPTY, confirmed);
      && GetBalance(db, PendingMoves(db, NO_CHANGES, moves), k) ==
         Balance(ApplyMoves(EMPTY, confirmed + moves).balances, k)
      && IsAmount(GetBalance(db, PendingMoves(db, NO_CHANGES, moves), k))
  {
    hide Total;
    OverlayAgrees(ApplyMoves(EMPTY, confirmed), moves);
    MovesInTwoParts(EMPTY, confirmed, moves);
    var t, es := ApplyMoves(EMPTY, confirmed + moves), Effects(EMPTY, confirmed + moves);
    SupplyIsConserved(confirmed + moves);
    assert SupplyRight(t, es, k.asset);
    ShareOfTotal(t.balances, k);
  }
}
