/**
 * The ledger of non-fungible assets (nonfungible/assets.cpp, moveparser.cpp, moveprocessor.cpp,
 * pending.cpp) as values: validation of operations, the database and the pending overlay on it.
 */
module Tokens {
  import opened Wrappers

  const MAX_AMOUNT: int := 0x1000_0000_0000_0000

  datatype Asset = Asset(minter: string, name: string)
  datatype Key = Key(owner: string, asset: Asset)

  /** Assets with their data, and the positive balances. */
  datatype Db = Db(assets: map<Asset, Option<string>>, balances: map<Key, int>)

  datatype Operation =
    | Mint(assetName: string, supply: int, data: Option<string>)
    | Transfer(asset: Asset, n: int, recipient: string)
    | Burn(asset: Asset, n: int)
    | Malformed

  /** A single operation, or an array in which invalid elements are ignored one by one. */
  datatype MoveData = Single(op: Operation) | Batch(ops: seq<Operation>) | NotAMove
  datatype Move = Move(name: string, data: MoveData)

  /** A valid operation, as the parser hands it on. */
  datatype Effect =
    | Minted(asset: Asset, supply: int, data: Option<string>)
    | Sent(asset: Asset, n: int, sender: string, recipient: string)
    | Burnt(asset: Asset, n: int, sender: string)

  // ---- Validation, shared by the database and the overlay ----

  predicate IsValidName(str: string) {
    forall k :: 0 <= k < |str| ==> str[k] as int >= 0x20
  }

  predicate IsValidAsset(a: Asset) {
    IsValidName(a.minter) && IsValidName(a.name)
  }

  predicate IsAmount(n: int) {
    0 <= n <= MAX_AMOUNT
  }

  /** The asset that an operation by the given name is about. */
  function Subject(name: string, op: Operation): Asset {
    match op
    case Mint(assetName, _, _) => Asset(name, assetName)
    case Transfer(a, _, _) => a
    case Burn(a, _) => a
    case Malformed => Asset("", "")
  }

  /** Validates an operation, knowing whether its asset exists and how much of it the name owns. */
  function Validate(name: string, op: Operation, known: bool, balance: int): (r: Option<Effect>)
    ensures r.Some? && r.value.Minted? ==> !known && IsAmount(r.value.supply)
    ensures r.Some? && !r.value.Minted? ==> 0 < r.value.n <= balance && r.value.sender == name
    ensures r.Some? ==> r.value.asset == Subject(name, op)
  {
    match op
    case Mint(assetName, supply, data) =>
      if IsValidName(assetName) && IsAmount(supply) && !known
      then Some(Minted(Asset(name, assetName), supply, data)) else None
    case Transfer(a, n, recipient) =>
      if IsValidAsset(a) && IsAmount(n) && n > 0 && n <= balance then Some(Sent(a, n, name, recipient)) else None
    case Burn(a, n) =>
      if IsValidAsset(a) && IsAmount(n) && n > 0 && n <= balance then Some(Burnt(a, n, name)) else None
    case Malformed => None
  }

  // ---- The database ----

  function Balance(balances: map<Key, int>, k: Key): int {
    if k in balances then balances[k] else 0
  }

  function UpdateRow(balances: map<Key, int>, k: Key, num: int): map<Key, int> {
    var b := Balance(balances, k) + num;
    if b == 0 then balances - {k} else balances[k := b]
  }

  function Apply(db: Db, e: Effect): Db {
    match e
    case Minted(a, supply, data) =>
      Db(db.assets[a := data], if supply > 0 then UpdateRow(db.balances, Key(a.minter, a), supply) else db.balances)
    case Sent(a, n, sender, recipient) =>
      db.(balances := UpdateRow(UpdateRow(db.balances, Key(sender, a), -n), Key(recipient, a), n))
    case Burnt(a, n, sender) =>
      db.(balances := UpdateRow(db.balances, Key(sender, a), -n))
  }

  function EffectOn(db: Db, name: string, op: Operation): Option<Effect> {
    var a := Subject(name, op);
    Validate(name, op, a in db.assets, Balance(db.balances, Key(name, a)))
  }

  function ApplyOperation(db: Db, name: string, op: Operation): Db {
    var e := EffectOn(db, name, op);
    if e.Some? then Apply(db, e.value) else db
  }

  function Operations(data: MoveData): seq<Operation> {
    match data
    case Single(op) => [op]
    case Batch(ops) => ops
    case NotAMove => []
  }

  function ApplyOperations(db: Db, name: string, ops: seq<Operation>): Db {
    if ops == [] then db
    else ApplyOperation(ApplyOperations(db, name, ops[..|ops| - 1]), name, ops[|ops| - 1])
  }

  function ApplyMoves(db: Db, moves: seq<Move>): Db {
    if moves == [] then db
    else
      var last := moves[|moves| - 1];
      ApplyOperations(ApplyMoves(db, moves[..|moves| - 1]), last.name, Operations(last.data))
  }

  // ---- The pending overlay ----

  /** New assets, and the balances that differ or differed from the database. */
  datatype Overlay = Overlay(assets: map<Asset, Option<string>>, balances: map<Key, int>)

  const NO_CHANGES := Overlay(map[], map[])

  predicate AssetExists(db: Db, p: Overlay, a: Asset) {
    a in p.assets || a in db.assets
  }

  function GetBalance(db: Db, p: Overlay, k: Key): int {
    if k in p.balances then p.balances[k] else Balance(db.balances, k)
  }

  function UpdateOverlay(db: Db, p: Overlay, k: Key, num: int): Overlay {
    p.(balances := p.balances[k := GetBalance(db, p, k) + num])
  }

  function ApplyPending(db: Db, p: Overlay, e: Effect): Overlay {
    match e
    case Minted(a, supply, data) =>
      var q := p.(assets := p.assets[a := data]);
      if supply > 0 then UpdateOverlay(db, q, Key(a.minter, a), supply) else q
    case Sent(a, n, sender, recipient) =>
      UpdateOverlay(db, UpdateOverlay(db, p, Key(sender, a), -n), Key(recipient, a), n)
    case Burnt(a, n, sender) =>
      UpdateOverlay(db, p, Key(sender, a), -n)
  }

  function PendingEffect(db: Db, p: Overlay, name: string, op: Operation): Option<Effect> {
    var a := Subject(name, op);
    Validate(name, op, AssetExists(db, p, a), GetBalance(db, p, Key(name, a)))
  }

  function PendingOperation(db: Db, p: Overlay, name: string, op: Operation): Overlay {
    var e := PendingEffect(db, p, name, op);
    if e.Some? then ApplyPending(db, p, e.value) else p
  }

  function PendingOperations(db: Db, p: Overlay, name: string, ops: seq<Operation>): Overlay {
    if ops == [] then p
    else PendingOperation(db, PendingOperations(db, p, name, ops[..|ops| - 1]), name, ops[|ops| - 1])
  }

  function PendingMoves(db: Db, p: Overlay, moves: seq<Move>): Overlay {
    if moves == [] then p
    else
      var last := moves[|moves| - 1];
      PendingOperations(db, PendingMoves(db, p, moves[..|moves| - 1]), last.name, Operations(last.data))
  }
}
