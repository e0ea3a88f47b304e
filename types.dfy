/** The schema type tree the resolver works on: one node per type or field of
    the message schema, with its bit offset, its bit width (or the alias
    sentinel), an optional alias target and an ordered list of members. */
module Types {

  datatype Option<+T> = None | Some(value: T)

  /** The C `uint32_t` range: every value an accessor returns lies in it. */
  const WORD: int := 0x1_0000_0000
  type uint32 = x: int | 0 <= x < 0x1_0000_0000

  /** `~0` read as a `uint32_t`: the all-ones word. */
  const ALL_ONES: uint32 := 0xFFFF_FFFF

  /** The `size` of a node that only refers to another type through `child`. */
  const ALIAS_SIZE: int := -1

  /** Return codes of the resolver's second convention (`RC_OK`, `RC_FAIL`,
      `RC_BAD_PARAM`); their numeric values live in a header that is not part
      of this model. */
  datatype Rc = Ok | Fail | BadParam

  /** A schema node. `child` is the alias target or single contained type,
      `members` the fields of an aggregate (`members_child[0..nb_members)`). */
  datatype Node = Node(
    name: Option<string>,
    size: int,
    offset: nat,
    child: Option<Node>,
    members: seq<Node>)
  {
    predicate IsAlias() {
      size == ALIAS_SIZE
    }
  }

  /** The conversion of a C `int` to `uint32_t`: reduction modulo 2^32. */
  function ToUint32(x: int): (r: uint32)
    ensures 0 <= x < WORD ==> r == x
    ensures x < 0 ==> r == x + WORD || x < -WORD
  {
    x % WORD
  }

  function Pow2(n: nat): (r: nat)
    ensures r >= 1
  {
    if n == 0 then 1 else 2 * Pow2(n - 1)
  }

  lemma {:induction false} Pow2Monotone(a: nat, b: nat)
    requires a <= b
    ensures Pow2(a) <= Pow2(b)
    decreases b
  {
    if a < b {
      Pow2Monotone(a, b - 1);
    }
  }

  /** Any value of fewer than 32 bits is below the all-ones word. */
  lemma NarrowValueIsNotAllOnes(v: nat, width: nat)
    requires width < 32 && v < Pow2(width)
    ensures v < ALL_ONES
  {
    Pow2Monotone(width, 31);
    assert Pow2(8) == 0x100;
    assert Pow2(16) == 0x1_0000;
    assert Pow2(24) == 0x100_0000;
    assert Pow2(31) == 0x8000_0000;
  }

  /** The node reached from `n` by following `child` exactly `k` times, or
      None when one of those hops is missing. */
  function Descend(n: Node, k: nat): (r: Option<Node>)
    decreases k
  {
    if k == 0 then Some(n)
    else match n.child
      case None => None
      case Some(c) => Descend(c, k - 1)
  }

  /** Every alias node on the `child` chain from `n` has a target, so the
      chain ends in a node with a concrete size (the tree is finite, hence
      acyclic). */
  predicate AliasChainComplete(n: Node)
    decreases n
  {
    n.IsAlias() ==> n.child.Some? && AliasChainComplete(n.child.value)
  }

  /** The first node on the `child` chain from `n` whose size is not the
      alias sentinel. */
  function ResolveAlias(n: Node): (r: Node)
    requires AliasChainComplete(n)
    ensures !r.IsAlias()
    decreases n
  {
    if n.IsAlias() then ResolveAlias(n.child.value) else n
  }

  /** The number of alias hops from `n` to the first node with a concrete
      size. */
  function AliasDepth(n: Node): (k: nat)
    requires AliasChainComplete(n)
    decreases n
  {
    if n.IsAlias() then 1 + AliasDepth(n.child.value) else 0
  }

  /** Resolution lands on the node `AliasDepth(n)` hops down, and every node
      before it on the way is an alias. */
  lemma {:induction false} ResolveAliasIsFirstConcreteHop(n: Node)
    requires AliasChainComplete(n)
    ensures Descend(n, AliasDepth(n)) == Some(ResolveAlias(n))
    ensures forall j :: 0 <= j < AliasDepth(n) ==> Descend(n, j).Some? && Descend(n, j).value.IsAlias()
    decreases n
  {
    if n.IsAlias() {
      var c := n.child.value;
      ResolveAliasIsFirstConcreteHop(c);
      forall j | 0 <= j < AliasDepth(n)
        ensures Descend(n, j).Some? && Descend(n, j).value.IsAlias()
      {
        if j > 0 {
          assert Descend(n, j) == Descend(c, j - 1);
        }
      }
    }
  }

  /** Whatever the depth `k` of the alias chain, resolution lands on the
      concrete node found after `k` hops. */
  lemma {:induction false} ResolveAliasFindsFirstConcrete(n: Node, k: nat, t: Node)
    requires Descend(n, k) == Some(t) && !t.IsAlias()
    requires forall j :: 0 <= j < k ==> Descend(n, j).Some? && Descend(n, j).value.IsAlias()
    ensures AliasChainComplete(n)
    ensures ResolveAlias(n) == t
    decreases k
  {
    if k == 0 {
      assert n == t;
    } else {
      assert Descend(n, 0) == Some(n);
      var c := n.child.value;
      forall j | 0 <= j < k - 1
        ensures Descend(c, j).Some? && Descend(c, j).value.IsAlias()
      {
        assert Descend(n, j + 1) == Descend(c, j);
      }
      ResolveAliasFindsFirstConcrete(c, k - 1, t);
    }
  }
}
