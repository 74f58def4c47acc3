/** The mover example game: moving players around a plane, forwards and backwards (mover/logic.cpp, moves.cpp). */
module Mover {
  import opened Wrappers
  import opened BlockTrees

  datatype Direction = NONE | RIGHT | LEFT | UP | DOWN | RIGHT_UP | RIGHT_DOWN | LEFT_UP | LEFT_DOWN

  datatype PlayerState = PlayerState(x: int, y: int, dir: Direction, stepsLeft: nat)
  datatype PlayerUndo = PlayerUndo(
    isNew: bool, previousDir: Option<Direction>, previousStepsLeft: Option<nat>, finishedDir: Option<Direction>)

  type GameState = map<string, PlayerState>
  type UndoData = map<string, PlayerUndo>

  /** A move's data: an object with just a direction string and an unsigned number, or anything else. */
  datatype MoveData = MoveData(d: string, n: nat) | Malformed
  datatype Move = Move(name: string, data: MoveData)
  datatype Order = Order(dir: Direction, steps: nat)

  const MAX_STEPS := 1000000
  const NO_UNDO := PlayerUndo(false, None, None, None)

  // ---- Moves ----

  function GetDirectionOffset(dir: Direction): (int, int)
    requires dir != NONE
  {
    match dir
    case RIGHT => (1, 0)
    case LEFT => (-1, 0)
    case UP => (0, 1)
    case DOWN => (0, -1)
    case RIGHT_UP => (1, 1)
    case RIGHT_DOWN => (1, -1)
    case LEFT_UP => (-1, 1)
    case LEFT_DOWN => (-1, -1)
  }

  function ParseDirection(str: string): Direction {
    if str == "l" then RIGHT
    else if str == "h" then LEFT
    else if str == "k" then UP
    else if str == "j" then DOWN
    else if str == "u" then RIGHT_UP
    else if str == "n" then RIGHT_DOWN
    else if str == "y" then LEFT_UP
    else if str == "b" then LEFT_DOWN
    else NONE
  }

  function ParseMove(data: MoveData): (r: Option<Order>)
    ensures r.Some? ==> r.value.dir != NONE && 1 <= r.value.steps <= MAX_STEPS
  {
    if data.Malformed? || ParseDirection(data.d) == NONE || data.n <= 0 || data.n > MAX_STEPS then None
    else Some(Order(ParseDirection(data.d), data.n))
  }

  /** The valid orders that a player gives in a block. */
  function OrdersOf(moves: seq<Move>, name: string): seq<Order> {
    if moves == [] then []
    else
      var last := moves[|moves| - 1];
      var before := OrdersOf(moves[..|moves| - 1], name);
      if last.name == name && ParseMove(last.data).Some? then before + [ParseMove(last.data).value] else before
  }

  // ---- Forward ----

  /** Whoever moves has steps left. */
  predicate Movable(state: GameState) {
    forall n :: n in state && state[n].dir != NONE ==> state[n].stepsLeft > 0
  }

  /** A player has a direction exactly while there are steps left. */
  predicate Tidy(state: GameState) {
    forall n :: n in state ==> (state[n].dir == NONE <==> state[n].stepsLeft == 0)
  }

  function Advance(p: PlayerState): PlayerState
    requires p.dir != NONE ==> p.stepsLeft > 0
  {
    if p.dir == NONE then p
    else
      var (dx, dy) := GetDirectionOffset(p.dir);
      PlayerState(p.x + dx, p.y + dy, if p.stepsLeft == 1 then NONE else p.dir, p.stepsLeft - 1)
  }

  predicate Finishes(p: PlayerState) {
    p.dir != NONE && p.stepsLeft == 1
  }

  /** The order that a player follows during the block. */
  function Ordered(state: GameState, moves: seq<Move>, name: string): PlayerState
    requires name in state || OrdersOf(moves, name) != []
  {
    var orders := OrdersOf(moves, name);
    var p := if name in state then state[name] else PlayerState(0, 0, NONE, 0);
    if orders == [] then p
    else p.(dir := orders[|orders| - 1].dir, stepsLeft := orders[|orders| - 1].steps)
  }

  /** What was there before a player's last order of the block. */
  function Replaced(state: GameState, moves: seq<Move>, name: string): Option<Order> {
    var orders := OrdersOf(moves, name);
    if |orders| >= 2 then Some(orders[|orders| - 2])
    else if name in state then Some(Order(state[name].dir, state[name].stepsLeft))
    else None
  }

  function MoveUndo(state: GameState, moves: seq<Move>, name: string): PlayerUndo {
    if OrdersOf(moves, name) == [] then NO_UNDO
    else
      var was := Replaced(state, moves, name);
      PlayerUndo(name !in state,
                 if was.Some? then Some(was.value.dir) else None,
                 if was.Some? then Some(was.value.steps) else None,
                 None)
  }

  function Movers(moves: seq<Move>): set<string> {
    set k | 0 <= k < |moves| :: moves[k].name
  }

  /** Who gives a valid order in the block. */
  function Givers(moves: seq<Move>): set<string> {
    set n | n in Movers(moves) && OrdersOf(moves, n) != []
  }

  function Present(state: GameState, moves: seq<Move>): set<string> {
    state.Keys + Givers(moves)
  }

  /** All players after the block, each with the last order given and then moved one step. */
  function ForwardPlayers(state: GameState, moves: seq<Move>): GameState
    requires Movable(state)
  {
    LastOrdersMove(state, moves);
    map n | n in Present(state, moves) :: Advance(Ordered(state, moves, n))
  }

  function FullUndo(state: GameState, moves: seq<Move>, name: string): PlayerUndo
    requires name in Present(state, moves)
  {
    var p := Ordered(state, moves, name);
    MoveUndo(state, moves, name).(finishedDir := if Finishes(p) then Some(p.dir) else None)
  }

  /** What undoing the block needs to know of those who gave an order or reached the end of a walk. */
  function ForwardUndo(state: GameState, moves: seq<Move>): UndoData {
    map n | n in Present(state, moves) && (n in Givers(moves) || Finishes(Ordered(state, moves, n))) ::
      FullUndo(state, moves, n)
  }

  function Forward(state: GameState, moves: seq<Move>): (r: (GameState, UndoData))
    requires Movable(state)
  {
    (ForwardPlayers(state, moves), ForwardUndo(state, moves))
  }

  lemma LastOrdersMove(state: GameState, moves: seq<Move>)
    requires Movable(state)
    ensures forall n :: n in Present(state, moves) && Ordered(state, moves, n).dir != NONE ==>
      Ordered(state, moves, n).stepsLeft > 0
  {
    forall n | n in Present(state, moves) {
      OrdersAreValid(moves, n);
    }
  }

  lemma {:induction false} OrdersAreValid(moves: seq<Move>, name: string)
    ensures forall k :: 0 <= k < |OrdersOf(moves, name)| ==>
      OrdersOf(moves, name)[k].dir != NONE && OrdersOf(moves, name)[k].steps >= 1
    ensures OrdersOf(moves, name) != [] ==> name in Movers(moves)
  {
    if moves != [] {
      OrdersAreValid(moves[..|moves| - 1], name);
    }
  }

  // ---- Backward ----

  /** Undoing the finish of a walk finds the player at rest. */
  predicate UndoFits(state: GameState, undo: UndoData) {
    forall n :: n in state && n in undo && !undo[n].isNew && undo[n].finishedDir.Some? ==>
      state[n].dir == NONE && state[n].stepsLeft == 0
  }

  function Restore(p: PlayerState, u: PlayerUndo): PlayerState {
    var walked := p.(dir := u.finishedDir.GetOr(p.dir));
    var back :=
      if walked.dir == NONE then walked
      else
        var (dx, dy) := GetDirectionOffset(walked.dir);
        PlayerState(walked.x - dx, walked.y - dy, walked.dir, walked.stepsLeft + 1);
    back.(dir := u.previousDir.GetOr(back.dir), stepsLeft := u.previousStepsLeft.GetOr(back.stepsLeft))
  }

  function UndoOf(undo: UndoData, name: string): PlayerUndo {
    if name in undo then undo[name] else NO_UNDO
  }

  function Backward(state: GameState, undo: UndoData): GameState {
    map n | n in state && !UndoOf(undo, n).isNew :: Restore(state[n], UndoOf(undo, n))
  }

  // ---- The loops ----

  /** Players and undo data after the orders of the block, before anyone moves. */
  predicate AfterOrders(was: GameState, moves: seq<Move>, state: GameState, undo: UndoData) {
    && state.Keys == Present(was, moves)
    && (forall n :: n in state ==> state[n] == Ordered(was, moves, n))
    && undo.Keys == Givers(moves)
    && (forall n :: n in undo ==> undo[n] == MoveUndo(was, moves, n))
  }

  /** The players after those outside rest have moved. */
  predicate HalfMoved(ordered: GameState, rest: set<string>, state: GameState)
    requires Movable(ordered)
  {
    && state.Keys == ordered.Keys
    && forall n :: n in state ==> state[n] == if n in rest then ordered[n] else Advance(ordered[n])
  }

  /** The undo data after that: also who reached the end of a walk. */
  predicate HalfNoted(ordered: GameState, given: UndoData, rest: set<string>, undo: UndoData) {
    && undo.Keys == given.Keys + (set n | n in ordered && n !in rest && Finishes(ordered[n]))
    && forall n :: n in undo ==> undo[n] == Noted(ordered, given, rest, n)
  }

  function Noted(ordered: GameState, given: UndoData, rest: set<string>, name: string): PlayerUndo {
    if name in ordered && name !in rest && Finishes(ordered[name])
    then UndoOf(given, name).(finishedDir := Some(ordered[name].dir))
    else UndoOf(given, name)
  }

  method MovePlayers(ordered: GameState, given: UndoData) returns (state: GameState, undo: UndoData)
    requires Movable(ordered)
    ensures HalfMoved(ordered, {}, state) && HalfNoted(ordered, given, {}, undo)
  {
    hide GetDirectionOffset, HalfMoved, HalfNoted;
    state, undo := ordered, given;
    var rest := state.Keys;
    NobodyMoved(ordered, given);
    while rest != {}
      invariant rest <= ordered.Keys && HalfMoved(ordered, rest, state) && HalfNoted(ordered, given, rest, undo)
      decreases |rest|
    {
      var name :| name in rest;
      MovedOne(ordered, rest, state, name);
      NotedOne(ordered, given, rest, undo, name);
      rest := rest - {name};
      var p := state[name];
      if p.dir != NONE {
        var (dx, dy) := GetDirectionOffset(p.dir);
        p := p.(x := p.x + dx, y := p.y + dy, stepsLeft := p.stepsLeft - 1);
        if p.stepsLeft == 0 {
          undo := undo[name := UndoOf(undo, name).(finishedDir := Some(p.dir))];
          p := p.(dir := NONE);
        }
        state := state[name := p];
      } else {
        assert state[name := p] == state;
      }
    }
  }

  lemma NobodyMoved(ordered: GameState, given: UndoData)
    requires Movable(ordered)
    ensures HalfMoved(ordered, ordered.Keys, ordered) && HalfNoted(ordered, given, ordered.Keys, given)
  {
  }

  lemma MovedOne(ordered: GameState, rest: set<string>, state: GameState, name: string)
    requires Movable(ordered) && HalfMoved(ordered, rest, state) && name in rest && name in ordered
    ensures name in state && state[name] == ordered[name]
    ensures HalfMoved(ordered, rest - {name}, state[name := Advance(ordered[name])])
  {
    hide Advance;
  }

  lemma NotedOne(ordered: GameState, given: UndoData, rest: set<string>, undo: UndoData, name: string)
    requires HalfNoted(ordered, given, rest, undo) && name in rest && name in ordered
    ensures HalfNoted(ordered, given, rest - {name},
              if Finishes(ordered[name]) then undo[name := UndoOf(undo, name).(finishedDir := Some(ordered[name].dir))]
              else undo)
  {
  }

  method ProcessForward(oldState: GameState, moves: seq<Move>) returns (state: GameState, undo: UndoData)
    requires Movable(oldState)
    ensures (state, undo) == Forward(oldState, moves)
  {
    hide AfterOrders, HalfMoved, HalfNoted, Forward;
    state, undo := GiveOrders(oldState, moves);
    OrdersLeaveMovable(oldState, moves, state, undo);
    ghost var ordered, given := state, undo;
    state, undo := MovePlayers(state, undo);
    ForwardIs(oldState, moves, ordered, given, state, undo);
  }

  lemma OrdersLeaveMovable(was: GameState, moves: seq<Move>, state: GameState, undo: UndoData)
    requires Movable(was) && AfterOrders(was, moves, state, undo)
    ensures Movable(state)
  {
    LastOrdersMove(was, moves);
  }

  lemma ForwardIs(was: GameState, moves: seq<Move>, ordered: GameState, given: UndoData, state: GameState, undo: UndoData)
    requires Movable(was) && Movable(ordered) && AfterOrders(was, moves, ordered, given)
    requires HalfMoved(ordered, {}, state) && HalfNoted(ordered, given, {}, undo)
    ensures (state, undo) == Forward(was, moves)
  {
    hide OrdersOf, MoveUndo, Ordered, Advance, HalfMoved, HalfNoted, AfterOrders, Movable;
    ForwardStateIs(was, moves, ordered, given, state);
    ForwardUndoIs(was, moves, ordered, given, undo);
  }

  lemma ForwardStateIs(was: GameState, moves: seq<Move>, ordered: GameState, given: UndoData, state: GameState)
    requires Movable(was) && Movable(ordered) && AfterOrders(was, moves, ordered, given)
    requires HalfMoved(ordered, {}, state)
    ensures state == ForwardPlayers(was, moves)
  {
    hide OrdersOf, MoveUndo, Ordered, Advance, Givers;
  }

  lemma ForwardUndoIs(was: GameState, moves: seq<Move>, ordered: GameState, given: UndoData, undo: UndoData)
    requires AfterOrders(was, moves, ordered, given)
    requires HalfNoted(ordered, given, {}, undo)
    ensures undo == ForwardUndo(was, moves)
  {
    hide OrdersOf, MoveUndo, Ordered, Givers, Finishes;
    MoveUndoPlain(was, moves);
    var r := ForwardUndo(was, moves);
    assert undo.Keys == r.Keys;
    forall n | n in undo ensures undo[n] == r[n] {
      assert undo[n] == Noted(ordered, given, {}, n);
    }
  }

  lemma MoveUndoPlain(was: GameState, moves: seq<Move>)
    ensures forall n ::
      && MoveUndo(was, moves, n).finishedDir.None?
      && (n !in Givers(moves) ==> MoveUndo(was, moves, n) == NO_UNDO)
  {
    AllPresent(was, moves);
  }

  method GiveOrders(was: GameState, moves: seq<Move>) returns (state: GameState, undo: UndoData)
    ensures AfterOrders(was, moves, state, undo)
  {
    hide AfterOrders, OrdersOf, ParseMove;
    state, undo := was, map[];
    NoOrders(was);
    for i := 0 to |moves|
      invariant AfterOrders(was, moves[..i], state, undo)
    {
      var name, order := moves[i].name, ParseMove(moves[i].data);
      OrderGiven(was, moves, i, state, undo);
      if order.Some? {
        var isNew := name !in state;
        var p := if isNew then PlayerState(0, 0, NONE, 0) else state[name];
        var u := UndoOf(undo, name);
        if isNew {
          u := u.(isNew := true);
        } else {
          u := u.(previousDir := Some(p.dir), previousStepsLeft := Some(p.stepsLeft));
        }
        undo := undo[name := u];
        state := state[name := p.(dir := order.value.dir, stepsLeft := order.value.steps)];
      }
    }
    assert moves[..|moves|] == moves;
  }

  lemma NoOrders(was: GameState)
    ensures AfterOrders(was, [], was, map[])
  {
  }

  /** The effect of one more order on the player's state and undo data. */
  lemma OrderGiven(was: GameState, moves: seq<Move>, i: nat, state: GameState, undo: UndoData)
    requires i < |moves| && AfterOrders(was, moves[..i], state, undo)
    ensures var name, order := moves[i].name, ParseMove(moves[i].data);
      if order.None? then AfterOrders(was, moves[..i + 1], state, undo)
      else
        var p := if name !in state then PlayerState(0, 0, NONE, 0) else state[name];
        var u := UndoOf(undo, name);
        var u' :=
          if name !in state then u.(isNew := true)
          else u.(previousDir := Some(p.dir), previousStepsLeft := Some(p.stepsLeft));
        AfterOrders(was, moves[..i + 1],
          state[name := p.(dir := order.value.dir, stepsLeft := order.value.steps)], undo[name := u'])
  {
    hide OrdersOf, ParseMove, Ordered, MoveUndo, Givers;
    OnlyOneChanges(was, moves, i);
    NextGivers(was, moves, i);
    if ParseMove(moves[i].data).Some? {
      NewOrder(was, moves, i);
    }
  }

  lemma NextGivers(was: GameState, moves: seq<Move>, i: nat)
    requires i < |moves|
    ensures Givers(moves[..i + 1]) == Givers(moves[..i]) + if ParseMove(moves[i].data).Some? then {moves[i].name} else {}
  {
    hide OrdersOf, ParseMove;
    OneMore(was, moves, i);
    AllPresent(was, moves[..i]);
  }

  lemma NewOrder(was: GameState, moves: seq<Move>, i: nat)
    requires i < |moves| && ParseMove(moves[i].data).Some?
    ensures var name, order := moves[i].name, ParseMove(moves[i].data).value;
      && OrdersOf(moves[..i + 1], name) != []
      && var known := name in Present(was, moves[..i]);
         var p := if known then Ordered(was, moves[..i], name) else PlayerState(0, 0, NONE, 0);
         var u := MoveUndo(was, moves[..i], name);
      && Ordered(was, moves[..i + 1], name) == p.(dir := order.dir, stepsLeft := order.steps)
      && MoveUndo(was, moves[..i + 1], name) ==
         (if known then u.(previousDir := Some(p.dir), previousStepsLeft := Some(p.stepsLeft)) else u.(isNew := true))
      && (name !in Givers(moves[..i]) ==> u == NO_UNDO)
  {
    hide OrdersOf, ParseMove;
    OneMore(was, moves, i);
    AllPresent(was, moves[..i]);
    var name, order := moves[i].name, ParseMove(moves[i].data).value;
    assert OrdersOf(moves[..i + 1], name) == OrdersOf(moves[..i], name) + [order];
  }

  lemma OnlyOneChanges(was: GameState, moves: seq<Move>, i: nat)
    requires i < |moves|
    ensures forall n :: n != moves[i].name || ParseMove(moves[i].data).None? ==>
      && MoveUndo(was, moves[..i + 1], n) == MoveUndo(was, moves[..i], n)
      && (n in Present(was, moves[..i + 1]) <==> n in Present(was, moves[..i]))
      && (n in Present(was, moves[..i]) && n in Present(was, moves[..i + 1]) ==>
            Ordered(was, moves[..i + 1], n) == Ordered(was, moves[..i], n))
  {
    hide OrdersOf, ParseMove;
    OneMore(was, moves, i);
    AllPresent(was, moves[..i]);
  }

  lemma OneMore(was: GameState, moves: seq<Move>, i: nat)
    requires i < |moves|
    ensures var order := ParseMove(moves[i].data);
      && Movers(moves[..i + 1]) == Movers(moves[..i]) + {moves[i].name}
      && (forall n :: OrdersOf(moves[..i + 1], n) ==
            if n == moves[i].name && order.Some? then OrdersOf(moves[..i], n) + [order.value] else OrdersOf(moves[..i], n))
  {
    assert moves[..i + 1][..i] == moves[..i];
  }

  lemma AllPresent(state: GameState, moves: seq<Move>)
    ensures forall n :: OrdersOf(moves, n) != [] ==> n in Movers(moves)
  {
    forall n | OrdersOf(moves, n) != [] {
      OrdersAreValid(moves, n);
    }
  }

  /** The players outside rest are restored, and the new ones among them noted for removal. */
  predicate HalfRestored(was: GameState, undo: UndoData, rest: set<string>, state: GameState, gone: set<string>) {
    && state.Keys == was.Keys
    && gone == (set n | n in was && n !in rest && UndoOf(undo, n).isNew)
    && forall n :: n in state && n !in gone ==>
         state[n] == if n in rest then was[n] else Restore(was[n], UndoOf(undo, n))
  }

  method ProcessBackwards(newState: GameState, undo: UndoData) returns (state: GameState)
    requires UndoFits(newState, undo)
    ensures state == Backward(newState, undo)
  {
    hide GetDirectionOffset, HalfRestored;
    state := newState;
    var playersToRemove, rest := {}, state.Keys;
    NobodyRestored(newState, undo);
    while rest != {}
      invariant rest <= newState.Keys && HalfRestored(newState, undo, rest, state, playersToRemove)
      decreases |rest|
    {
      var name :| name in rest;
      RestoredOne(newState, undo, rest, state, playersToRemove, name);
      rest := rest - {name};
      var p, u := state[name], UndoOf(undo, name);
      if u.isNew {
        playersToRemove := playersToRemove + {name};
      } else {
        if u.finishedDir.Some? {
          assert p.dir == NONE && p.stepsLeft == 0;
          p := p.(dir := u.finishedDir.value);
        }
        if p.dir != NONE {
          var (dx, dy) := GetDirectionOffset(p.dir);
          p := p.(stepsLeft := p.stepsLeft + 1, x := p.x - dx, y := p.y - dy);
        }
        if u.previousDir.Some? {
          p := p.(dir := u.previousDir.value);
        }
        if u.previousStepsLeft.Some? {
          p := p.(stepsLeft := u.previousStepsLeft.value);
        }
        state := state[name := p];
      }
    }
    AllRestored(newState, undo, state, playersToRemove);
    state := state - playersToRemove;
  }

  lemma NobodyRestored(was: GameState, undo: UndoData)
    ensures HalfRestored(was, undo, was.Keys, was, {})
  {
  }

  lemma AllRestored(was: GameState, undo: UndoData, state: GameState, gone: set<string>)
    requires HalfRestored(was, undo, {}, state, gone)
    ensures state - gone == Backward(was, undo)
  {
    hide Restore;
  }

  lemma RestoredOne(
      was: GameState, undo: UndoData, rest: set<string>, state: GameState, gone: set<string>, name: string)
    requires HalfRestored(was, undo, rest, state, gone) && name in rest && name in was
    ensures name in state && state[name] == was[name]
    ensures if UndoOf(undo, name).isNew then HalfRestored(was, undo, rest - {name}, state, gone + {name})
            else HalfRestored(was, undo, rest - {name}, state[name := Restore(was[name], UndoOf(undo, name))], gone)
  {
    hide Restore;
  }

  // ---- Undoing ----

  /** Whoever was there gives one order at most, or repeats the old one just before the last. */
  predicate Reversible(state: GameState, moves: seq<Move>) {
    forall n :: n in state && |OrdersOf(moves, n)| >= 2 ==>
      Replaced(state, moves, n) == Some(Order(state[n].dir, state[n].stepsLeft))
  }

  /** Restoring takes back exactly one step and then the noted order. */
  lemma RestoreAdvanced(p: PlayerState, u: PlayerUndo)
    requires p.dir != NONE ==> p.stepsLeft > 0
    requires u.finishedDir == if Finishes(p) then Some(p.dir) else None
    ensures Restore(Advance(p), u) ==
      p.(dir := u.previousDir.GetOr(p.dir), stepsLeft := u.previousStepsLeft.GetOr(p.stepsLeft))
  {
  }

  lemma RestoreOrdered(state: GameState, moves: seq<Move>, name: string)
    requires Movable(state) && name in state
    ensures name in Present(state, moves)
    ensures var (after, undo) := Forward(state, moves);
      && !UndoOf(undo, name).isNew && name in Backward(after, undo)
      && Backward(after, undo)[name] ==
         (if OrdersOf(moves, name) == [] then state[name]
          else state[name].(dir := Replaced(state, moves, name).value.dir,
                            stepsLeft := Replaced(state, moves, name).value.steps))
  {
    hide OrdersOf, Restore, Advance, Finishes;
    LastOrdersMove(state, moves);
    MoveUndoPlain(state, moves);
    AllPresent(state, moves);
    var (after, undo) := Forward(state, moves);
    assert UndoOf(undo, name) == FullUndo(state, moves, name);
    RestoreAdvanced(Ordered(state, moves, name), UndoOf(undo, name));
  }

  /** Undoing a block gives the state before it exactly if no two different orders hide what was there. */
  lemma UndoExactlyIf(state: GameState, moves: seq<Move>)
    requires Movable(state)
    ensures UndoFits(Forward(state, moves).0, Forward(state, moves).1)
    ensures Backward(Forward(state, moves).0, Forward(state, moves).1) == state <==> Reversible(state, moves)
  {
    var (after, undo) := Forward(state, moves);
    var back := Backward(after, undo);
    assert back.Keys == state.Keys by {
      AllPresent(state, moves);
      forall n ensures n in back <==> n in state {
        if n in state { RestoreOrdered(state, moves, n); }
      }
    }
    forall n | n in state
      ensures back[n] == state[n] <==>
        (|OrdersOf(moves, n)| >= 2 ==> Replaced(state, moves, n) == Some(Order(state[n].dir, state[n].stepsLeft)))
    {
      RestoreOrdered(state, moves, n);
    }
  }

  /** At most one valid move for each name. */
  predicate SingleOrders(moves: seq<Move>) {
    forall n :: n in Movers(moves) ==> |OrdersOf(moves, n)| <= 1
  }

  lemma SingleOrdersReverse(state: GameState, moves: seq<Move>)
    requires SingleOrders(moves)
    ensures Reversible(state, moves)
  {
    AllPresent(state, moves);
  }

  lemma ForwardTidy(state: GameState, moves: seq<Move>)
    requires Tidy(state)
    ensures Movable(state) && Tidy(Forward(state, moves).0)
  {
    forall n | n in Forward(state, moves).0
      ensures var p := Forward(state, moves).0[n]; p.dir == NONE <==> p.stepsLeft == 0
    {
      OrdersAreValid(moves, n);
    }
  }

  /** A player who gave two different orders in one block, and whose state is then not restored. */
  lemma TwoOrdersAreNotUndone()
    ensures var state: GameState := map["domob" := PlayerState(5, 7, NONE, 0)];
      var moves := [Move("domob", MoveData("l", 3)), Move("domob", MoveData("k", 2))];
      && Tidy(state) && Movable(state)
      && Backward(Forward(state, moves).0, Forward(state, moves).1) != state
  {
    var state: GameState := map["domob" := PlayerState(5, 7, NONE, 0)];
    var moves := [Move("domob", MoveData("l", 3)), Move("domob", MoveData("k", 2))];
    TwoOrders(moves[0], moves[1], "domob");
    hide Forward, Backward, OrdersOf;
    UndoExactlyIf(state, moves);
  }

  lemma TwoOrders(a: Move, b: Move, name: string)
    requires a.name == b.name == name && ParseMove(a.data).Some? && ParseMove(b.data).Some?
    ensures OrdersOf([a, b], name) == [ParseMove(a.data).value, ParseMove(b.data).value]
  {
    assert [a, b][..1] == [a] && [a][..0] == [];
    assert OrdersOf([a], name) == [ParseMove(a.data).value];
  }

  // ---- The game on the block tree ----

  /** A world that plays this game from the empty state, with single orders in each block. */
  ghost predicate PlaysMover(w: World<GameState, seq<Move>, UndoData>) {
    && w.initial == map[]
    && (forall h :: w.height(h) > 0 ==> w.height(w.parent(h)) + 1 == w.height(h))
    && (forall h :: SingleOrders(w.block(h)))
    && (forall s, b :: Movable(s) ==> w.forward(s, b) == Forward(s, b))
    && (forall s, b, u :: w.backward(s, b, u) == Backward(s, u))
  }

  /** Players walk one field a block at most, so coordinates stay within the number of blocks. */
  predicate Within(state: GameState, n: int) {
    forall k :: k in state ==> -n <= state[k].x <= n && -n <= state[k].y <= n
  }

  lemma WithinStep(state: GameState, moves: seq<Move>, n: int)
    requires Movable(state) && Within(state, n) && n >= 0
    ensures Within(Forward(state, moves).0, n + 1)
  {
    hide OrdersOf;
    LastOrdersMove(state, moves);
    var after := Forward(state, moves).0;
    forall k | k in after ensures -(n + 1) <= after[k].x <= n + 1 && -(n + 1) <= after[k].y <= n + 1 {
      var p := Ordered(state, moves, k);
      assert -n <= p.x <= n && -n <= p.y <= n;
    }
  }

  lemma {:induction false} StatesInOrder(w: World<GameState, seq<Move>, UndoData>, h: Hash)
    requires PlaysMover(w) && w.OnTree(h)
    ensures Tidy(w.StateAt(h)) && Within(w.StateAt(h), w.height(h) - w.height(w.genesis))
    decreases w.height(h)
  {
    if h != w.genesis {
      hide Tidy, Movable, Within, Forward;
      StatesInOrder(w, w.parent(h));
      w.AboveGenesis(w.parent(h));
      ForwardTidy(w.StateAt(w.parent(h)), w.block(h));
      WithinStep(w.StateAt(w.parent(h)), w.block(h), w.height(w.parent(h)) - w.height(w.genesis));
    }
  }

  /** The game meets what block sync relies on: every block can be undone. */
  lemma MoverIsLawful(w: World<GameState, seq<Move>, UndoData>)
    requires PlaysMover(w)
    ensures w.Lawful()
  {
    forall h | w.OnTree(h) && h != w.genesis ensures w.Undoable(h) {
      var before, moves := w.StateAt(w.parent(h)), w.block(h);
      StatesInOrder(w, w.parent(h));
      ForwardTidy(before, moves);
      SingleOrdersReverse(before, moves);
      UndoExactlyIf(before, moves);
    }
  }

  // ---- Walks ----

  /** What counts as an order, from its text. */
  predicate IsOrder(data: MoveData) {
    data.MoveData? && data.d in {"h", "j", "k", "l", "y", "u", "b", "n"} && 1 <= data.n <= 1000000
  }

  /** The fields that this many steps lead to the right, and up. */
  function Rightwards(d: string, steps: int): int {
    if d in {"l", "u", "n"} then steps else if d in {"h", "y", "b"} then -steps else 0
  }

  function Upwards(d: string, steps: int): int {
    if d in {"k", "u", "y"} then steps else if d in {"j", "n", "b"} then -steps else 0
  }

  /** The i-th move of the block is the last order that its player gives in it. */
  predicate IsLastOrder(moves: seq<Move>, i: nat) {
    i < |moves| && IsOrder(moves[i].data)
    && forall j :: i < j < |moves| && moves[j].name == moves[i].name ==> !IsOrder(moves[j].data)
  }

  predicate GivesNone(moves: seq<Move>, name: string) {
    forall j :: 0 <= j < |moves| && moves[j].name == name ==> !IsOrder(moves[j].data)
  }

  lemma OrderText(data: MoveData)
    ensures ParseMove(data).Some? <==> IsOrder(data)
    ensures IsOrder(data) ==> ParseMove(data).value.steps == data.n
    ensures IsOrder(data) ==>
      GetDirectionOffset(ParseMove(data).value.dir) == (Rightwards(data.d, 1), Upwards(data.d, 1))
  {
  }

  lemma {:induction false} NoneGiven(moves: seq<Move>, name: string)
    requires GivesNone(moves, name)
    ensures OrdersOf(moves, name) == []
  {
    if moves != [] {
      OrderText(moves[|moves| - 1].data);
      NoneGiven(moves[..|moves| - 1], name);
    }
  }

  lemma {:induction false} LastGiven(moves: seq<Move>, i: nat)
    requires IsLastOrder(moves, i)
    ensures var orders := OrdersOf(moves, moves[i].name);
      orders != [] && Some(orders[|orders| - 1]) == ParseMove(moves[i].data)
    decreases |moves|
  {
    hide ParseMove, IsOrder;
    var m := |moves| - 1;
    OrderText(moves[m].data);
    if i < m {
      LastGiven(moves[..m], i);
      assert moves[..m][i] == moves[i];
    }
  }

  /** The players after a number of blocks. */
  function After(state: GameState, blocks: seq<seq<Move>>): (t: GameState)
    requires Tidy(state)
    ensures Tidy(t)
  {
    if blocks == [] then state
    else
      var before := After(state, blocks[..|blocks| - 1]);
      ForwardTidy(before, blocks[|blocks| - 1]);
      ForwardPlayers(before, blocks[|blocks| - 1])
  }

  /** One block of a player who gives no order in it. */
  lemma StepOn(state: GameState, moves: seq<Move>, name: string)
    requires Movable(state) && name in state && GivesNone(moves, name)
    ensures name in ForwardPlayers(state, moves)
    ensures ForwardPlayers(state, moves)[name] == Advance(state[name])
  {
    hide OrdersOf, Advance;
    NoneGiven(moves, name);
  }

  /** The block of an order: it replaces whatever the player did before, and the first step is made. */
  lemma StepOff(state: GameState, moves: seq<Move>, i: nat)
    requires Movable(state) && IsLastOrder(moves, i)
    ensures var name, d, n := moves[i].name, moves[i].data.d, moves[i].data.n;
      var at := if name in state then state[name] else PlayerState(0, 0, NONE, 0);
      && ParseMove(moves[i].data).Some? && name in ForwardPlayers(state, moves)
      && ForwardPlayers(state, moves)[name] ==
         Advance(PlayerState(at.x, at.y, ParseMove(moves[i].data).value.dir, n))
  {
    hide OrdersOf, Advance, ParseMove;
    OrderText(moves[i].data);
    LastGiven(moves, i);
    AllPresent(state, moves);
  }

  /**
   * After an order of n steps and more blocks without another one, the player stands as many fields
   * from the start as there were blocks, but n at most, in the direction of the order's letter.
   */
  lemma {:induction false} WalkLeadsTo(state: GameState, first: seq<Move>, i: nat, rest: seq<seq<Move>>)
    requires Tidy(state) && IsLastOrder(first, i)
    requires forall k :: 0 <= k < |rest| ==> GivesNone(rest[k], first[i].name)
    ensures var name, d, n := first[i].name, first[i].data.d, first[i].data.n;
      var x, y := if name in state then state[name].x else 0, if name in state then state[name].y else 0;
      var steps := if |rest| + 1 < n then |rest| + 1 else n;
      var t := After(state, [first] + rest);
      && name in t
      && t[name].x == x + Rightwards(d, steps) && t[name].y == y + Upwards(d, steps)
      && t[name].stepsLeft == n - steps && (steps < n ==> Some(Order(t[name].dir, n)) == ParseMove(first[i].data))
    decreases |rest|
  {
    hide ForwardPlayers, ParseMove, Forward;
    OrderText(first[i].data);
    var blocks := [first] + rest;
    if rest == [] {
      assert blocks[..0] == [];
      ForwardTidy(state, first);
      StepOff(state, first, i);
    } else {
      var m := |rest| - 1;
      WalkLeadsTo(state, first, i, rest[..m]);
      assert blocks[..|blocks| - 1] == [first] + rest[..m];
      var before := After(state, [first] + rest[..m]);
      ForwardTidy(before, rest[m]);
      StepOn(before, rest[m], first[i].name);
    }
  }
}
