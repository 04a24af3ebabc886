/** Cart entities and the type test of CartTools' typed queries. The runtime class
    hierarchy of the Java code becomes a closed set of cart kinds with an is-a relation. */
module Carts {
  import opened Wrappers

  /** The minecart entity classes: EntityMinecart and its subclasses. */
  datatype CartKind =
    | Minecart      // EntityMinecart, the root
    | Rideable      // EntityMinecartEmpty
    | Container     // EntityMinecartContainer
    | Chest         // EntityMinecartChest, a Container
    | Hopper        // EntityMinecartHopper, a Container
    | Furnace       // EntityMinecartFurnace
    | Tnt           // EntityMinecartTNT
    | MobSpawner    // EntityMinecartMobSpawner
    | CommandBlock  // EntityMinecartCommandBlock

  /** Distance from the root of the hierarchy. */
  function Depth(k: CartKind): nat
  {
    match k
    case Minecart => 0
    case Chest => 2
    case Hopper => 2
    case _ => 1
  }

  /** The direct superclass of a kind, None for the root; one level closer to the root. */
  function Parent(k: CartKind): (p: Option<CartKind>)
    ensures p.Some? ==> Depth(p.value) + 1 == Depth(k)
    ensures p.None? <==> k == Minecart
  {
    match k
    case Minecart => None
    case Chest => Some(Container)
    case Hopper => Some(Container)
    case _ => Some(Minecart)
  }

  /** `k` is `t` or a subclass of `t`: Class.isInstance for a cart whose class is `k`. */
  predicate IsA(k: CartKind, t: CartKind)
    decreases Depth(k)
  {
    k == t || (Parent(k).Some? && IsA(Parent(k).value, t))
  }

  lemma {:induction false} IsATransitive(a: CartKind, b: CartKind, c: CartKind)
    requires IsA(a, b) && IsA(b, c)
    ensures IsA(a, c)
    decreases Depth(a)
  {
    if a != b {
      IsATransitive(Parent(a).value, b, c);
    }
  }

  /** A supertype is never deeper than its subtype, and equally deep only when equal. */
  lemma {:induction false} IsADepth(a: CartKind, b: CartKind)
    requires IsA(a, b)
    ensures Depth(b) <= Depth(a)
    ensures Depth(b) == Depth(a) ==> a == b
    decreases Depth(a)
  {
    if a != b {
      IsADepth(Parent(a).value, b);
    }
  }

  lemma IsAAntisymmetric(a: CartKind, b: CartKind)
    requires IsA(a, b) && IsA(b, a)
    ensures a == b
  {
    IsADepth(a, b);
    IsADepth(b, a);
  }

  /** Every cart kind is an EntityMinecart. */
  lemma IsARoot(k: CartKind)
    ensures IsA(k, Minecart)
  {
  }

  /** A cart entity as CartTools sees it: its entity id, runtime class, the
      isDead flag, whether its world is a client mirror (worldObj.isRemote),
      and the string entries of its persistent entity data. */
  datatype Cart = Cart(id: nat, kind: CartKind, dead: bool, clientSide: bool, data: map<string, string>)

  predicate IsLive(c: Cart)
  {
    !c.dead
  }

  /** The class test of the typed queries for a non-null type token `t`:
      `(subclass && type.isInstance(cart)) || cart.getClass() == type`. With subclass
      matching it is is-a; without it only the exact class counts; the exact class
      counts either way. */
  function ClassRule(c: Cart, t: CartKind, subclass: bool): (b: bool)
    ensures subclass ==> (b <==> IsA(c.kind, t))
    ensures !subclass ==> (b <==> c.kind == t)
    ensures c.kind == t ==> b
  {
    (subclass && IsA(c.kind, t)) || c.kind == t
  }

  /** The test of the typed first-match and existence queries, where a null type
      matches any cart. */
  function Matches(c: Cart, t: Option<CartKind>, subclass: bool): (b: bool)
    ensures t.None? ==> b
    ensures t.Some? ==> (b <==> ClassRule(c, t.value, subclass))
    ensures t.Some? && !subclass ==> (b <==> c.kind == t.value)
  {
    t.None? || ClassRule(c, t.value, subclass)
  }

  function ClassMatcher(t: CartKind, subclass: bool): Cart -> bool
  {
    c => ClassRule(c, t, subclass)
  }

  function Matcher(t: Option<CartKind>, subclass: bool): Cart -> bool
  {
    c => Matches(c, t, subclass)
  }
}
