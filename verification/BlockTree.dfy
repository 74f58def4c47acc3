/** Blocks, and what a game's rules say about the state at each of them (xayagame/gamelogic.hpp). */
module BlockTrees {
  type Hash = string

  /**
   * All blocks that a daemon may ever report, with their parents, heights and contents, and the
   * game's rules: the initial state at the genesis block, and processing blocks in both directions.
   */
  datatype World<!S, !B, !U> = World(
    parent: Hash -> Hash,
    height: Hash -> nat,
    block: Hash -> B,
    genesis: Hash,
    initial: S,
    forward: (S, B) -> (S, U),
    backward: (S, B, U) -> S)
  {
    /** The block descends from the genesis block. */
    predicate OnTree(h: Hash)
      decreases height(h)
    {
      || h == genesis
      || (&& height(h) > height(genesis)
          && height(parent(h)) + 1 == height(h)
          && OnTree(parent(h)))
    }

    /** The state at a block: the forward rules folded over its chain from the genesis block. */
    function StateAt(h: Hash): S
      requires OnTree(h)
      decreases height(h)
    {
      if h == genesis then initial else forward(StateAt(parent(h)), block(h)).0
    }

    /** The undo data of a block. */
    function UndoAt(h: Hash): U
      requires OnTree(h) && h != genesis
    {
      forward(StateAt(parent(h)), block(h)).1
    }

    /** Heights count blocks, and each block on the tree can be undone. */
    ghost predicate Lawful() {
      && (forall h :: height(h) > 0 ==> height(parent(h)) + 1 == height(h))
      && (forall h :: OnTree(h) && h != genesis ==> Undoable(h))
    }

    ghost predicate Undoable(h: Hash)
      requires OnTree(h) && h != genesis
    {
      backward(StateAt(h), block(h), UndoAt(h)) == StateAt(parent(h))
    }

    /** The undo data holds an entry for every block from h back to the genesis block. */
    predicate Covers(undo: map<Hash, U>, h: Hash)
      requires OnTree(h)
      decreases height(h)
    {
      h == genesis || (h in undo && Covers(undo, parent(h)))
    }

    /** A block's child on the tree is on the tree as well, and is never the genesis block. */
    lemma ChildOnTree(h: Hash)
      requires Lawful() && height(h) > 0 && OnTree(parent(h))
      ensures OnTree(h) && h != genesis
    {
      AboveGenesis(parent(h));
    }

    lemma AboveGenesis(h: Hash)
      requires OnTree(h)
      ensures height(h) >= height(genesis)
    {
    }

    function Ancestor(h: Hash, n: nat): Hash
      decreases n
    {
      if n == 0 then h else Ancestor(parent(h), n - 1)
    }

    /** Undoes n blocks, starting with h, each with its own undo data. */
    function UndoBack(s: S, h: Hash, n: nat): S
      requires OnTree(h) && n <= height(h) - height(genesis)
      decreases n
    {
      if n == 0 then s
      else
        UndoBack(backward(s, block(h), UndoAt(h)), parent(h), n - 1)
    }

    /** Undoing any number of blocks leads to the state that the forward rules give for the older block. */
    lemma {:induction false} UndoReachesAncestor(h: Hash, n: nat)
      requires Lawful() && OnTree(h) && n <= height(h) - height(genesis)
      ensures OnTree(Ancestor(h, n)) && UndoBack(StateAt(h), h, n) == StateAt(Ancestor(h, n))
      decreases n
    {
      if n > 0 {
        assert Undoable(h);
        UndoReachesAncestor(parent(h), n - 1);
      }
    }

    /** Undo data of blocks that are not ancestors of h does not matter for covering it. */
    lemma {:induction false} CoversFrame(undo: map<Hash, U>, other: map<Hash, U>, h: Hash, changed: Hash)
      requires OnTree(h) && Covers(undo, h) && height(changed) > height(h)
      requires forall k :: k in undo && k != changed ==> k in other
      ensures Covers(other, h)
      decreases height(h)
    {
      if h != genesis {
        CoversFrame(undo, other, parent(h), changed);
      }
    }
  }

  /** A notification about a block, as the daemon sends it. */
  datatype Message<B> = Message(hash: Hash, parent: Hash, height: nat, block: B, reqtoken: string)

  predicate Truthful<S, B(==), U>(w: World<S, B, U>, m: Message<B>) {
    w.parent(m.hash) == m.parent && w.height(m.hash) == m.height && w.block(m.hash) == m.block && m.height > 0
  }
}
