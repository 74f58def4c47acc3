/**
 * The on-chain game state of Battleships (ships/logic.cpp) as values: what each move and each
 * block does to the tables, and what holds over every sequence of blocks.
 */
module ShipsLedger {
  import opened Wrappers
  import opened Counting
  import opened Channels
  import opened StateProofs
  import opened ChannelGames

  const DISPUTE_BLOCKS := 10
  const CHANNEL_TIMEOUT_BLOCKS := 12

  type Txid = ChannelId
  type Player = i: nat | i < 2

  datatype Extra = Extra(createdHeight: nat, participants: nat)
  datatype Stats = Stats(won: nat, lost: nat)

  /** How channels come and go. */
  datatype Event =
    | Created(id: ChannelId)
    | Aborted(id: ChannelId)
    | TimedOut(id: ChannelId)
    | Closed(id: ChannelId, winner: string, loser: string)

  /** The three tables, and the history of channels so far. */
  datatype State = State(
    channels: map<ChannelId, Row>,
    extra: map<ChannelId, Extra>,
    stats: map<string, Stats>,
    log: seq<Event>)

  datatype Action =
    | Create(addr: string)
    | Join(id: ChannelId, addr: string)
    | Abort(id: ChannelId)
    | DeclareLoss(id: ChannelId, reinit: string)
    | FileDispute(id: ChannelId, proof: StateProof)
    | FileResolution(id: ChannelId, proof: StateProof)
    | NoAction

  datatype Move = Move(name: string, txid: Txid, action: Action)

  /** The board rules with their winner, the first board state, and the next reinitialisation id. */
  datatype Rules<!P> = Rules(
    env: Env<P>,
    winner: P -> Option<Unsigned>,
    initialBoard: BoardState,
    nextReinit: (string, Txid) -> string)

  /** What the ledger relies on: a two-player state has a winner exactly when nobody is on turn. */
  ghost predicate GoodRules<P(!new)>(rules: Rules<P>) {
    && LawfulRules(rules.env)
    && (forall id, meta, s :: WinnerFitsTurn(rules, Context(rules.env, id, meta), s))
    && (forall id, meta :: BoardStarts(rules, Context(rules.env, id, meta)))
    && (forall txid :: rules.nextReinit("", txid) != "")
  }

  predicate WinnerFitsTurn<P>(rules: Rules<P>, c: Context<P>, s: BoardState) {
    c.Size() == 2 && c.Parse(s).Some? ==>
      (c.env.whoseTurn(c.Parse(s).value) == NO_TURN <==> rules.winner(c.Parse(s).value).Some?)
  }

  predicate BoardStarts<P>(rules: Rules<P>, c: Context<P>) {
    c.Size() == 2 ==> c.Parse(rules.initialBoard).Some? && rules.winner(c.Parse(rules.initialBoard).value).None?
  }

  function ContextOf<P>(rules: Rules<P>, id: ChannelId, row: Row): Context<P> {
    Context(rules.env, id, row.meta)
  }

  // ---- What the handlers do ----

  function Won(stats: map<string, Stats>, name: string): nat {
    if name in stats then stats[name].won else 0
  }

  function Lost(stats: map<string, Stats>, name: string): nat {
    if name in stats then stats[name].lost else 0
  }

  function UpdateStats(stats: map<string, Stats>, winner: string, loser: string): map<string, Stats> {
    var s1 := stats[winner := Stats(Won(stats, winner) + 1, Lost(stats, winner))];
    s1[loser := Stats(Won(s1, loser), Lost(s1, loser) + 1)]
  }

  function Delete(st: State, id: ChannelId, e: Event): State {
    st.(channels := st.channels - {id}, extra := st.extra - {id}, log := st.log + [e])
  }

  /** Closes a two-player channel with the given winner. */
  function Close(st: State, id: ChannelId, winner: Player): State
    requires id in st.channels && |st.channels[id].meta.participants| == 2
  {
    var ps := st.channels[id].meta.participants;
    var w, l := ps[winner].name, ps[1 - winner].name;
    Delete(st.(stats := UpdateStats(st.stats, w, l)), id, Closed(id, w, l))
  }

  function DoCreate(st: State, height: nat, name: string, txid: Txid, addr: string): State {
    var meta := Metadata([Participant(name, addr)], "");
    var v := ChannelValue(meta, "", StateProofFromReinit(""), None);
    st.(channels := st.channels[txid := Store(v)], extra := st.extra[txid := Extra(height, 1)],
        log := st.log + [Created(txid)])
  }

  predicate CanJoin(st: State, name: string, id: ChannelId) {
    && id in st.channels
    && |st.channels[id].meta.participants| == 1
    && st.channels[id].meta.participants[0].name != name
  }

  function DoJoin<P>(rules: Rules<P>, st: State, name: string, txid: Txid, id: ChannelId, addr: string): State
    requires id in st.extra
  {
    if !CanJoin(st, name, id) then st
    else
      var row := st.channels[id];
      var meta := Metadata(row.meta.participants + [Participant(name, addr)], rules.nextReinit(row.meta.reinit, txid));
      var v := ChannelValue(meta, rules.initialBoard, StateProofFromReinit(rules.initialBoard), row.disputeHeight);
      st.(channels := st.channels[id := Store(v)], extra := st.extra[id := st.extra[id].(participants := 2)])
  }

  predicate CanAbort(st: State, name: string, id: ChannelId) {
    && id in st.channels
    && |st.channels[id].meta.participants| == 1
    && st.channels[id].meta.participants[0].name == name
  }

  function DoAbort(st: State, name: string, id: ChannelId): State {
    if CanAbort(st, name, id) then Delete(st, id, Aborted(id)) else st
  }

  /** The index of the named participant of a two-player channel. */
  function IndexOf(meta: Metadata, name: string): Option<Player>
    requires |meta.participants| == 2
  {
    if meta.participants[0].name == name then Some(0)
    else if meta.participants[1].name == name then Some(1) else None
  }

  function DoDeclareLoss(st: State, name: string, id: ChannelId, reinit: string): State {
    if id in st.channels && |st.channels[id].meta.participants| == 2 && st.channels[id].meta.reinit == reinit
      && IndexOf(st.channels[id].meta, name).Some?
    then Close(st, id, 1 - IndexOf(st.channels[id].meta, name).value)
    else st
  }

  /** What a handler of disputes and resolutions may assume about the channel's data. */
  ghost predicate Playable<P>(rules: Rules<P>, st: State, id: ChannelId) {
    && id in st.channels && |st.channels[id].meta.participants| == 2
    && OnChainParses(ContextOf(rules, id, st.channels[id]), Load(st.channels[id]))
  }

  ghost function Filing<P>(
      rules: Rules<P>, st: State, id: ChannelId, proof: StateProof, height: nat, isDispute: bool): Option<ChannelValue>
    requires Playable(rules, st, id)
  {
    var c, v := ContextOf(rules, id, st.channels[id]), Load(st.channels[id]);
    if isDispute then Dispute(c, v, height, proof) else Resolve(c, v, proof)
  }

  /** The winner that the channel's state names once the proof is accepted. */
  ghost function NamedWinner<P>(rules: Rules<P>, id: ChannelId, v: ChannelValue): Option<Unsigned> {
    var p := Context(rules.env, id, v.meta).Parse(v.LatestState());
    if p.None? then None else rules.winner(p.value)
  }

  /**
   * The CHECKs that a filed proof can fail: that the results of moves parse, and that the winner
   * which the state names is one of the two players. The source aborts there.
   */
  ghost predicate FilingFailsCheck<P>(
      rules: Rules<P>, st: State, id: ChannelId, proof: StateProof, height: nat, isDispute: bool)
    requires Playable(rules, st, id)
  {
    || FailsCheck(ContextOf(rules, id, st.channels[id]), proof)
    || (var v := Filing(rules, st, id, proof, height, isDispute);
        v.Some? && NamedWinner(rules, id, v.value).GetOr(0) > 1)
  }

  ghost function DoDisputeResolution<P>(
      rules: Rules<P>, st: State, id: ChannelId, proof: StateProof, height: nat, isDispute: bool): State
    requires id in st.channels && |st.channels[id].meta.participants| == 2 ==> Playable(rules, st, id)
  {
    if id !in st.channels || |st.channels[id].meta.participants| != 2 then st
    else
      var v := Filing(rules, st, id, proof, height, isDispute);
      if FilingFailsCheck(rules, st, id, proof, height, isDispute) || v.None? then st
      else
        FilingKeepsMeta(rules, st, id, proof, height, isDispute);
        var stored := st.(channels := st.channels[id := Store(v.value)]);
        var winner := NamedWinner(rules, id, v.value);
        if winner.Some? then Close(stored, id, winner.value) else stored
  }

  lemma FilingKeepsMeta<P>(
      rules: Rules<P>, st: State, id: ChannelId, proof: StateProof, height: nat, isDispute: bool)
    requires Playable(rules, st, id)
    ensures var v := Filing(rules, st, id, proof, height, isDispute);
      v.Some? ==> v.value.meta == st.channels[id].meta && Store(v.value).meta == st.channels[id].meta
  {
  }

  // ---- The invariant of the tables ----

  /** A channel waiting for its second player. */
  predicate Waiting(row: Row) {
    && |row.meta.participants| == 1 && row.meta.reinit == ""
    && row.disputeHeight.None? && row.stateProof.None?
  }

  /** A channel in play: a good proof of an unfinished state, and disputes only about states with a turn. */
  ghost predicate InPlay<P>(rules: Rules<P>, id: ChannelId, row: Row) {
    var c, v := ContextOf(rules, id, row), Load(row);
    && |row.meta.participants| == 2
    && row.meta.participants[0].name != row.meta.participants[1].name
    && c.Parse(row.reinit).Some? && GoodProof(c, row.reinit, v.proof)
    && c.Parse(v.LatestState()).Some?
    && rules.winner(c.Parse(v.LatestState()).value).None?
    && row.disputeHeight != Some(0)
  }

  /** Open disputes date from dFrom..height, waiting channels from cFrom..height. */
  ghost predicate GoodChannel<P>(
      rules: Rules<P>, st: State, id: ChannelId, dFrom: int, cFrom: int, height: nat)
    requires id in st.channels && id in st.extra
  {
    var row, x := st.channels[id], st.extra[id];
    && x.participants == |row.meta.participants|
    && (Waiting(row) || InPlay(rules, id, row))
    && (row.disputeHeight.Some? ==> dFrom <= row.disputeHeight.value <= height)
    && (x.participants == 1 ==> cFrom <= x.createdHeight <= height)
  }

  ghost predicate GoodTables<P>(rules: Rules<P>, st: State, dFrom: int, cFrom: int, height: nat) {
    && st.channels.Keys == st.extra.Keys
    && forall id :: id in st.channels.Keys ==> id in st.extra && GoodChannel(rules, st, id, dFrom, cFrom, height)
  }

  /** After the block at a height. */
  ghost predicate AfterBlock<P>(rules: Rules<P>, st: State, height: nat) {
    GoodTables(rules, st, height - DISPUTE_BLOCKS + 1, height - CHANNEL_TIMEOUT_BLOCKS + 1, height)
  }

  /** While the moves of the block at a height are processed. */
  ghost predicate InBlock<P>(rules: Rules<P>, st: State, height: nat) {
    GoodTables(rules, st, height - DISPUTE_BLOCKS, height - CHANNEL_TIMEOUT_BLOCKS, height)
  }

  lemma NextBlock<P>(rules: Rules<P>, st: State, height: nat)
    requires height > 0 && AfterBlock(rules, st, height - 1)
    ensures InBlock(rules, st, height)
  {
    hide Waiting, InPlay;
  }

  lemma OthersStay<P>(
      rules: Rules<P>, st: State, t: State, id: ChannelId, dFrom: int, cFrom: int, height: nat)
    requires GoodTables(rules, st, dFrom, cFrom, height)
    requires t.channels == st.channels - {id} && t.extra == st.extra - {id}
    ensures GoodTables(rules, t, dFrom, cFrom, height)
  {
    hide Waiting, InPlay;
    forall j | j in t.channels.Keys ensures j in t.extra && GoodChannel(rules, t, j, dFrom, cFrom, height) {
      assert j in st.channels.Keys && GoodChannel(rules, st, j, dFrom, cFrom, height);
    }
  }

  lemma OneChanges<P>(
      rules: Rules<P>, st: State, t: State, id: ChannelId, row: Row, x: Extra, dFrom: int, cFrom: int, height: nat)
    requires GoodTables(rules, st, dFrom, cFrom, height)
    requires t.channels == st.channels[id := row] && t.extra == st.extra[id := x]
    requires GoodChannel(rules, t, id, dFrom, cFrom, height)
    ensures GoodTables(rules, t, dFrom, cFrom, height)
  {
    hide Waiting, InPlay;
    forall j | j in t.channels.Keys ensures j in t.extra && GoodChannel(rules, t, j, dFrom, cFrom, height) {
      if j != id {
        assert j in st.channels.Keys && GoodChannel(rules, st, j, dFrom, cFrom, height);
      }
    }
  }

  lemma CreateInBlock<P>(rules: Rules<P>, st: State, height: nat, name: string, txid: Txid, addr: string)
    requires InBlock(rules, st, height) && txid !in st.channels
    ensures InBlock(rules, DoCreate(st, height, name, txid, addr), height)
  {
    hide InPlay;
    var t := DoCreate(st, height, name, txid, addr);
    OneChanges(rules, st, t, txid, t.channels[txid], t.extra[txid],
      height - DISPUTE_BLOCKS, height - CHANNEL_TIMEOUT_BLOCKS, height);
  }

  lemma JoinInBlock<P(!new)>(
      rules: Rules<P>, st: State, height: nat, name: string, txid: Txid, id: ChannelId, addr: string)
    requires GoodRules(rules) && InBlock(rules, st, height) && id in st.extra && CanJoin(st, name, id)
    ensures Waiting(st.channels[id])
    ensures rules.nextReinit(st.channels[id].meta.reinit, txid) != st.channels[id].meta.reinit
    ensures InBlock(rules, DoJoin(rules, st, name, txid, id, addr), height)
  {
    hide LawfulRules, Context.Lawful, ValidProof;
    assert id in st.channels.Keys;
    var t := DoJoin(rules, st, name, txid, id, addr);
    var row := t.channels[id];
    var c := ContextOf(rules, id, row);
    assert BoardStarts(rules, c) && c.Size() == 2;
    assert c.Lawful() by { ContextIsLawful(rules, id, row.meta); }
    ReinitProofIsGood(c, rules.initialBoard);
    assert Load(row).proof == StateProofFromReinit(rules.initialBoard);
    OneChanges(rules, st, t, id, row, t.extra[id],
      height - DISPUTE_BLOCKS, height - CHANNEL_TIMEOUT_BLOCKS, height);
  }

  lemma ContextIsLawful<P(!new)>(rules: Rules<P>, id: ChannelId, meta: Metadata)
    requires GoodRules(rules)
    ensures Context(rules.env, id, meta).Lawful()
  {
  }

  /** The channels that the handlers of disputes and resolutions look at are in order. */
  lemma TwoPlayersInPlay<P>(rules: Rules<P>, st: State, id: ChannelId, dFrom: int, cFrom: int, height: nat)
    requires GoodTables(rules, st, dFrom, cFrom, height)
    requires id in st.channels && |st.channels[id].meta.participants| == 2
    ensures InPlay(rules, id, st.channels[id]) && Playable(rules, st, id)
  {
    assert id in st.channels.Keys;
  }

  lemma StoredInPlay<P(!new)>(rules: Rules<P>, id: ChannelId, row: Row, v: ChannelValue)
    requires GoodRules(rules) && InPlay(rules, id, row)
    requires v.meta == row.meta && v.reinit == row.reinit && v.disputeHeight != Some(0)
    requires var c := ContextOf(rules, id, row);
      && GoodProof(c, v.reinit, v.proof) && c.Parse(v.LatestState()).Some?
      && rules.winner(c.Parse(v.LatestState()).value).None?
    ensures InPlay(rules, id, Store(v))
  {
    hide LawfulRules, Context.Lawful, ValidProof, CheckVersionedProto, Store, Load;
    StoreFields(v);
    ContextIsLawful(rules, id, row.meta);
    StoreLoad(ContextOf(rules, id, row), v);
  }

  lemma StoreFields(v: ChannelValue)
    ensures Store(v).meta == v.meta && Store(v).reinit == v.reinit && Store(v).disputeHeight == v.disputeHeight
  {
  }

  lemma DisputeResolutionInBlock<P(!new)>(
      rules: Rules<P>, st: State, height: nat, id: ChannelId, proof: StateProof, isDispute: bool)
    requires GoodRules(rules) && InBlock(rules, st, height) && height > 0
    requires id in st.channels && |st.channels[id].meta.participants| == 2
    ensures Playable(rules, st, id)
    ensures InBlock(rules, DoDisputeResolution(rules, st, id, proof, height, isDispute), height)
  {
    hide LawfulRules, Context.Lawful, GoodProof, Dispute, Resolve, InPlay, Store, Load, UpdateStats,
      StateProofFromReinit, FailsCheck, Close;
    var dFrom, cFrom := height - DISPUTE_BLOCKS, height - CHANNEL_TIMEOUT_BLOCKS;
    TwoPlayersInPlay(rules, st, id, dFrom, cFrom, height);
    var row := st.channels[id];
    var c, v := ContextOf(rules, id, row), Load(row);
    LoadFields(rules, id, row);
    ContextIsLawful(rules, id, row.meta);
    var res := Filing(rules, st, id, proof, height, isDispute);
    var t := DoDisputeResolution(rules, st, id, proof, height, isDispute);
    if res.Some? && !FilingFailsCheck(rules, st, id, proof, height, isDispute) {
      if isDispute { DisputeProgress(c, v, height, proof); } else { ResolutionProgress(c, v, proof); }
      FilingKeepsMeta(rules, st, id, proof, height, isDispute);
      var winner := NamedWinner(rules, id, res.value);
      if winner.None? {
        StoredInPlay(rules, id, row, res.value);
        StoreFields(res.value);
        assert GoodChannel(rules, st, id, dFrom, cFrom, height);
        assert t.extra == st.extra[id := st.extra[id]];
        OneChanges(rules, st, t, id, Store(res.value), st.extra[id], dFrom, cFrom, height);
      } else {
        var stored := st.(channels := st.channels[id := Store(res.value)]);
        ClosedIsGone(stored, id, winner.value);
        assert t.channels == st.channels - {id};
        OthersStay(rules, st, t, id, dFrom, cFrom, height);
      }
    }
  }

  lemma ClosedIsGone(st: State, id: ChannelId, winner: Player)
    requires id in st.channels && |st.channels[id].meta.participants| == 2
    ensures Close(st, id, winner).channels == st.channels - {id}
    ensures Close(st, id, winner).extra == st.extra - {id}
  {
  }

  lemma LoadFields<P>(rules: Rules<P>, id: ChannelId, row: Row)
    requires InPlay(rules, id, row)
    ensures Load(row).meta == row.meta && Load(row).reinit == row.reinit && Load(row).disputeHeight == row.disputeHeight
    ensures GoodProof(ContextOf(rules, id, row), row.reinit, Load(row).proof)
  {
  }

  lemma CloseInBlock<P>(rules: Rules<P>, st: State, id: ChannelId, winner: Player, dFrom: int, cFrom: int, height: nat)
    requires GoodTables(rules, st, dFrom, cFrom, height)
    requires id in st.channels && |st.channels[id].meta.participants| == 2
    ensures GoodTables(rules, Close(st, id, winner), dFrom, cFrom, height)
  {
    OthersStay(rules, st, Close(st, id, winner), id, dFrom, cFrom, height);
  }

  // ---- Moves ----

  ghost function ApplyAction<P>(rules: Rules<P>, st: State, height: nat, mv: Move): State
    requires InBlock(rules, st, height)
  {
    match mv.action
    case Create(addr) => DoCreate(st, height, mv.name, mv.txid, addr)
    case Join(id, addr) => if id in st.extra then DoJoin(rules, st, mv.name, mv.txid, id, addr) else st
    case Abort(id) => DoAbort(st, mv.name, id)
    case DeclareLoss(id, reinit) => DoDeclareLoss(st, mv.name, id, reinit)
    case FileDispute(id, proof) => Filed(rules, st, height, id, proof, true)
    case FileResolution(id, proof) => Filed(rules, st, height, id, proof, false)
    case NoAction => st
  }

  ghost function Filed<P>(
      rules: Rules<P>, st: State, height: nat, id: ChannelId, proof: StateProof, isDispute: bool): State
    requires InBlock(rules, st, height)
  {
    if id in st.channels && |st.channels[id].meta.participants| == 2 then
      TwoPlayersInPlay(rules, st, id, height - DISPUTE_BLOCKS, height - CHANNEL_TIMEOUT_BLOCKS, height);
      DoDisputeResolution(rules, st, id, proof, height, isDispute)
    else st
  }

  /** Processing the move makes the source abort at a CHECK. */
  ghost predicate MoveFailsCheck<P>(rules: Rules<P>, st: State, height: nat, mv: Move)
    requires InBlock(rules, st, height)
  {
    match mv.action
    case FileDispute(id, proof) => FiledFailsCheck(rules, st, height, id, proof, true)
    case FileResolution(id, proof) => FiledFailsCheck(rules, st, height, id, proof, false)
    case _ => false
  }

  ghost predicate FiledFailsCheck<P>(
      rules: Rules<P>, st: State, height: nat, id: ChannelId, proof: StateProof, isDispute: bool)
    requires InBlock(rules, st, height)
  {
    id in st.channels && |st.channels[id].meta.participants| == 2 &&
    (TwoPlayersInPlay(rules, st, id, height - DISPUTE_BLOCKS, height - CHANNEL_TIMEOUT_BLOCKS, height);
     FilingFailsCheck(rules, st, id, proof, height, isDispute))
  }

  /** Transaction ids do not collide with channels that exist already. */
  predicate FreshTxid(st: State, mv: Move) {
    mv.action.Create? ==> mv.txid !in st.channels
  }

  lemma ActionInBlock<P(!new)>(rules: Rules<P>, st: State, height: nat, mv: Move)
    requires GoodRules(rules) && height > 0 && InBlock(rules, st, height) && FreshTxid(st, mv)
    ensures InBlock(rules, ApplyAction(rules, st, height, mv), height)
    ensures ApplyAction(rules, st, height, mv).channels.Keys
         <= st.channels.Keys + (if mv.action.Create? then {mv.txid} else {})
  {
    hide InPlay, Waiting, GoodRules, DoDisputeResolution, Playable;
    var dFrom, cFrom := height - DISPUTE_BLOCKS, height - CHANNEL_TIMEOUT_BLOCKS;
    match mv.action
    case Create(addr) => CreateInBlock(rules, st, height, mv.name, mv.txid, addr);
    case Join(id, addr) =>
      if id in st.extra && CanJoin(st, mv.name, id) {
        JoinInBlock(rules, st, height, mv.name, mv.txid, id, addr);
      }
    case Abort(id) =>
      if CanAbort(st, mv.name, id) {
        OthersStay(rules, st, DoAbort(st, mv.name, id), id, dFrom, cFrom, height);
      }
    case DeclareLoss(id, reinit) =>
      if id in st.channels && |st.channels[id].meta.participants| == 2 {
        CloseInBlock(rules, st, id, 0, dFrom, cFrom, height);
        CloseInBlock(rules, st, id, 1, dFrom, cFrom, height);
      }
    case FileDispute(id, proof) => FiledInBlock(rules, st, height, id, proof, true);
    case FileResolution(id, proof) => FiledInBlock(rules, st, height, id, proof, false);
    case NoAction =>
  }

  lemma FiledInBlock<P(!new)>(
      rules: Rules<P>, st: State, height: nat, id: ChannelId, proof: StateProof, isDispute: bool)
    requires GoodRules(rules) && height > 0 && InBlock(rules, st, height)
    ensures InBlock(rules, Filed(rules, st, height, id, proof, isDispute), height)
    ensures Filed(rules, st, height, id, proof, isDispute).channels.Keys <= st.channels.Keys
  {
    hide GoodTables, GoodRules, Playable, Dispute, Resolve, Load, Store, UpdateStats;
    if id in st.channels && |st.channels[id].meta.participants| == 2 {
      DisputeResolutionInBlock(rules, st, height, id, proof, isDispute);
    }
  }

  /** All moves of a block have fresh ids: not taken yet, and not used twice for a creation. */
  predicate FreshMoves(st: State, moves: seq<Move>) {
    && (forall k :: 0 <= k < |moves| ==> FreshTxid(st, moves[k]))
    && (forall j, k :: 0 <= j < k < |moves| && moves[j].action.Create? ==> moves[j].txid != moves[k].txid)
  }

  ghost function ApplyMoves<P(!new)>(rules: Rules<P>, st: State, height: nat, moves: seq<Move>): (t: State)
    requires GoodRules(rules) && height > 0 && InBlock(rules, st, height) && FreshMoves(st, moves)
    ensures InBlock(rules, t, height)
    decreases |moves|, 1
  {
    if moves == [] then st
    else
      var m := |moves| - 1;
      MovesKeepFresh(rules, st, height, moves);
      ActionInBlock(rules, ApplyMoves(rules, st, height, moves[..m]), height, moves[m]);
      ApplyAction(rules, ApplyMoves(rules, st, height, moves[..m]), height, moves[m])
  }

  /** The last move's id is still fresh after the moves before it. */
  lemma MovesKeepFresh<P(!new)>(rules: Rules<P>, st: State, height: nat, moves: seq<Move>)
    requires GoodRules(rules) && height > 0 && InBlock(rules, st, height) && FreshMoves(st, moves) && moves != []
    ensures FreshMoves(st, moves[..|moves| - 1])
    ensures FreshTxid(ApplyMoves(rules, st, height, moves[..|moves| - 1]), moves[|moves| - 1])
    decreases |moves|, 0
  {
    OnlyCreatedAppear(rules, st, height, moves[..|moves| - 1]);
  }

  lemma {:induction false} OnlyCreatedAppear<P(!new)>(rules: Rules<P>, st: State, height: nat, moves: seq<Move>)
    requires GoodRules(rules) && height > 0 && InBlock(rules, st, height) && FreshMoves(st, moves)
    ensures forall id :: id in ApplyMoves(rules, st, height, moves).channels ==>
      id in st.channels || exists k :: 0 <= k < |moves| && moves[k].action.Create? && moves[k].txid == id
    decreases |moves|, 2
  {
    hide GoodRules, ApplyAction;
    if moves != [] {
      var m := |moves| - 1;
      MovesKeepFresh(rules, st, height, moves);
      OnlyCreatedAppear(rules, st, height, moves[..m]);
      ActionInBlock(rules, ApplyMoves(rules, st, height, moves[..m]), height, moves[m]);
    }
  }
}
