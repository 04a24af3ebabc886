/** The cart locator of CartTools: live carts in a search box around a cell, on one
    side of it, on all six sides, and the typed existence and first-match queries. */
module Locator {
  import opened Wrappers
  import opened Seqs
  import opened Geometry
  import opened Carts

  /** An axis-aligned bounding box. */
  datatype Box = Box(minX: real, minY: real, minZ: real, maxX: real, maxY: real, maxZ: real)

  /** The host world as the locator consults it: its spatial index of minecart
      entities (World.getEntitiesWithinAABB(EntityMinecart.class, box), in the index's
      own order) and the track predicate TrackTools.isTrackAt. */
  datatype World = World(cartsWithin: Box -> seq<Cart>, isTrackAt: Pos -> bool)

  /** The largest sensitivity a search uses. */
  const MaxSensitivity: real := 0.49

  /** The thrown NullPointerException of the typed all-sides query called with a null type. */
  datatype LocatorError = NullType

  /** Math.min(sensitivity, 0.49f). */
  function Clamp(s: real): (e: real)
    ensures e <= MaxSensitivity && e <= s
    ensures e == s || e == MaxSensitivity
  {
    if s < MaxSensitivity then s else MaxSensitivity
  }

  /** The search box of getMinecartsAt: the unit cell at `pos` inset by the clamped
      sensitivity on every face (outset when it is negative). */
  function CellBox(pos: Pos, sensitivity: real): (b: Box)
    ensures b.minX < b.maxX && b.minY < b.maxY && b.minZ < b.maxZ
    ensures b.minX + b.maxX == 2.0 * pos.x as real + 1.0
    ensures b.minY + b.maxY == 2.0 * pos.y as real + 1.0
    ensures b.minZ + b.maxZ == 2.0 * pos.z as real + 1.0
    ensures sensitivity <= MaxSensitivity ==>
      b.maxX - b.minX == b.maxY - b.minY == b.maxZ - b.minZ == 1.0 - 2.0 * sensitivity
  {
    var e := Clamp(sensitivity);
    Box(pos.x as real + e, pos.y as real + e, pos.z as real + e,
        pos.x as real + 1.0 - e, pos.y as real + 1.0 - e, pos.z as real + 1.0 - e)
  }

  function Min(a: real, b: real): real
  {
    if a <= b then a else b
  }

  function Max(a: real, b: real): real
  {
    if a <= b then b else a
  }

  /** AxisAlignedBB.fromBounds: the box spanned by two corners given in any order. */
  function SpanBox(p1: Pos, p2: Pos): (b: Box)
    ensures b.minX <= b.maxX && b.minY <= b.maxY && b.minZ <= b.maxZ
    ensures {b.minX, b.maxX} == {p1.x as real, p2.x as real}
    ensures {b.minY, b.maxY} == {p1.y as real, p2.y as real}
    ensures {b.minZ, b.maxZ} == {p1.z as real, p2.z as real}
  {
    Box(Min(p1.x as real, p2.x as real), Min(p1.y as real, p2.y as real), Min(p1.z as real, p2.z as real),
        Max(p1.x as real, p2.x as real), Max(p1.y as real, p2.y as real), Max(p1.z as real, p2.z as real))
  }

  /** getMinecartsAt: exactly the live carts the index reports for the search box,
      in the index's order. */
  function GetMinecartsAt(world: World, pos: Pos, sensitivity: real): (r: seq<Cart>)
    ensures forall i :: 0 <= i < |r| ==> !r[i].dead
    ensures forall c :: c in r <==> c in world.cartsWithin(CellBox(pos, sensitivity)) && !c.dead
  {
    Filter(IsLive, world.cartsWithin(CellBox(pos, sensitivity)))
  }

  /** getMinecartsIn: exactly the live carts the index reports for the box between
      two corners, in the index's order. */
  function GetMinecartsIn(world: World, p1: Pos, p2: Pos): (r: seq<Cart>)
    ensures forall i :: 0 <= i < |r| ==> !r[i].dead
    ensures forall c :: c in r <==> c in world.cartsWithin(SpanBox(p1, p2)) && !c.dead
  {
    Filter(IsLive, world.cartsWithin(SpanBox(p1, p2)))
  }

  /** getMinecartsAt keeps every live cart the index reports, as often and in the order
      the index reports it, and nothing else. */
  lemma AtKeepsExactlyLive(world: World, pos: Pos, sensitivity: real)
    ensures KeepsExactly(IsLive, GetMinecartsAt(world, pos, sensitivity), world.cartsWithin(CellBox(pos, sensitivity)))
  {
    FilterKeepsExactly(IsLive, world.cartsWithin(CellBox(pos, sensitivity)));
  }

  /** getMinecartsIn keeps every live cart the index reports, in the index's order. */
  lemma InKeepsExactlyLive(world: World, p1: Pos, p2: Pos)
    ensures KeepsExactly(IsLive, GetMinecartsIn(world, p1, p2), world.cartsWithin(SpanBox(p1, p2)))
  {
    FilterKeepsExactly(IsLive, world.cartsWithin(SpanBox(p1, p2)));
  }

  /** The order of the two corners does not matter. */
  lemma GetMinecartsInSymmetric(world: World, p1: Pos, p2: Pos)
    ensures GetMinecartsIn(world, p1, p2) == GetMinecartsIn(world, p2, p1)
  {
    assert SpanBox(p1, p2) == SpanBox(p2, p1);
  }

  /** Sensitivities from 0.49 up all search the same box. */
  lemma ClampOnce(pos: Pos, s: real)
    ensures CellBox(pos, Clamp(s)) == CellBox(pos, s)
    ensures s >= MaxSensitivity ==> CellBox(pos, s) == CellBox(pos, MaxSensitivity)
  {
  }

  /** getMinecartsOnSide: the carts found at the neighbouring cell on `side`. */
  function GetMinecartsOnSide(world: World, pos: Pos, sensitivity: real, side: Direction): (r: seq<Cart>)
    ensures forall c :: c in r <==> c in world.cartsWithin(CellBox(Offset(pos, side), sensitivity)) && !c.dead
  {
    GetMinecartsAt(world, Offset(pos, side), sensitivity)
  }

  /** The side query probes the one neighbouring cell, with the same sensitivity. */
  lemma OnSideProbesNeighbour(world: World, pos: Pos, sensitivity: real, side: Direction)
    ensures KeepsExactly(IsLive, GetMinecartsOnSide(world, pos, sensitivity, side),
                         world.cartsWithin(CellBox(Offset(pos, side), sensitivity)))
    ensures side == Unknown ==> GetMinecartsOnSide(world, pos, sensitivity, side) == GetMinecartsAt(world, pos, sensitivity)
  {
    AtKeepsExactlyLive(world, Offset(pos, side), sensitivity);
  }

  /** getMinecartOnSide (untyped): the first cart found on `side`, or null. */
  function GetMinecartOnSide(world: World, pos: Pos, sensitivity: real, side: Direction): (r: Option<Cart>)
    ensures r.None? <==> |GetMinecartsOnSide(world, pos, sensitivity, side)| == 0
    ensures r.Some? ==> r.value == GetMinecartsOnSide(world, pos, sensitivity, side)[0]
  {
    var carts := GetMinecartsOnSide(world, pos, sensitivity, side);
    if |carts| > 0 then Some(carts[0]) else None
  }

  /** isMinecartOnSide (untyped). */
  function IsMinecartOnSide(world: World, pos: Pos, sensitivity: real, side: Direction): (b: bool)
    ensures b <==> exists c :: c in world.cartsWithin(CellBox(Offset(pos, side), sensitivity)) && !c.dead
  {
    GetMinecartOnSide(world, pos, sensitivity, side).Some?
  }

  /** getMinecartOnSide (typed): the first cart on `side` that passes the type test,
      any cart when the type is null. */
  function GetMinecartOnSideOfType(world: World, pos: Pos, sensitivity: real, side: Direction,
                                   t: Option<CartKind>, subclass: bool): (r: Option<Cart>)
    ensures r.None? <==> forall c :: c in GetMinecartsOnSide(world, pos, sensitivity, side) ==> !Matches(c, t, subclass)
    ensures r.Some? ==> Matches(r.value, t, subclass) && r.value in GetMinecartsOnSide(world, pos, sensitivity, side)
  {
    FirstMatch(Matcher(t, subclass), GetMinecartsOnSide(world, pos, sensitivity, side))
  }

  /** isMinecartOnSide (typed). */
  function IsMinecartOnSideOfType(world: World, pos: Pos, sensitivity: real, side: Direction,
                                  t: Option<CartKind>, subclass: bool): (b: bool)
    ensures b <==> exists c :: c in GetMinecartsOnSide(world, pos, sensitivity, side) && Matches(c, t, subclass)
  {
    GetMinecartOnSideOfType(world, pos, sensitivity, side, t, subclass).Some?
  }

  /** The typed first match is the head of the order-preserving typed filter. */
  lemma FirstOnSideIsHeadOfFilter(world: World, pos: Pos, sensitivity: real, side: Direction,
                                  t: Option<CartKind>, subclass: bool)
    ensures var matching := Filter(Matcher(t, subclass), GetMinecartsOnSide(world, pos, sensitivity, side));
      GetMinecartOnSideOfType(world, pos, sensitivity, side, t, subclass)
        == if |matching| == 0 then None else Some(matching[0])
  {
    FirstMatchIsHeadOfFilter(Matcher(t, subclass), GetMinecartsOnSide(world, pos, sensitivity, side));
  }

  /** The untyped first match is the typed one with a null type. */
  lemma UntypedOnSideIsNullType(world: World, pos: Pos, sensitivity: real, side: Direction, subclass: bool)
    ensures GetMinecartOnSide(world, pos, sensitivity, side)
      == GetMinecartOnSideOfType(world, pos, sensitivity, side, None, subclass)
  {
    FirstOnSideIsHeadOfFilter(world, pos, sensitivity, side, None, subclass);
    FilterKeepsAll(Matcher(None, subclass), GetMinecartsOnSide(world, pos, sensitivity, side));
  }

  /** isMinecartAt (typed): whether some live cart in the cell passes the test,
      any live cart when the type is null. */
  function IsMinecartAtOfType(world: World, pos: Pos, sensitivity: real, t: Option<CartKind>, subclass: bool): (b: bool)
    ensures b <==> exists c :: c in GetMinecartsAt(world, pos, sensitivity) && Matches(c, t, subclass)
  {
    var carts := GetMinecartsAt(world, pos, sensitivity);
    if t.None? then
      assert |carts| > 0 ==> carts[0] in carts;
      |carts| > 0
    else
      assert (exists i :: 0 <= i < |carts| && ClassRule(carts[i], t.value, subclass))
         <==> (exists c :: c in carts && ClassRule(c, t.value, subclass));
      exists i :: 0 <= i < |carts| && ClassRule(carts[i], t.value, subclass)
  }

  /** isMinecartAt (untyped), which asks the typed query with a null type. */
  function IsMinecartAt(world: World, pos: Pos, sensitivity: real): (b: bool)
    ensures b <==> exists c :: c in world.cartsWithin(CellBox(pos, sensitivity)) && !c.dead
  {
    IsMinecartAtOfType(world, pos, sensitivity, None, true)
  }

  /** isMinecartOnRailAt (typed): false off the track, otherwise isMinecartAt. */
  function IsMinecartOnRailAtOfType(world: World, pos: Pos, sensitivity: real, t: Option<CartKind>, subclass: bool): (b: bool)
    ensures !world.isTrackAt(pos) ==> !b
    ensures b <==> world.isTrackAt(pos) && exists c :: c in GetMinecartsAt(world, pos, sensitivity) && Matches(c, t, subclass)
  {
    if world.isTrackAt(pos) then IsMinecartAtOfType(world, pos, sensitivity, t, subclass) else false
  }

  /** isMinecartOnRailAt (untyped). */
  function IsMinecartOnRailAt(world: World, pos: Pos, sensitivity: real): (b: bool)
    ensures !world.isTrackAt(pos) ==> !b
    ensures b <==> world.isTrackAt(pos) && IsMinecartAt(world, pos, sensitivity)
  {
    IsMinecartOnRailAtOfType(world, pos, sensitivity, None, true)
  }

  /** The list built by `for (side = 0; side < n; side++) list.addAll(getMinecartsOnSide(...))`. */
  function SideLists(world: World, pos: Pos, sensitivity: real, n: nat): seq<Cart>
    requires n <= 6
  {
    if n == 0 then []
    else SideLists(world, pos, sensitivity, n - 1) + GetMinecartsOnSide(world, pos, sensitivity, GetOrientation(n - 1))
  }

  /** getMinecartsOnAllSides (untyped): the six side lists concatenated in the order
      DOWN, UP, NORTH, SOUTH, WEST, EAST, with duplicates kept. */
  function GetMinecartsOnAllSides(world: World, pos: Pos, sensitivity: real): (r: seq<Cart>)
    ensures r == GetMinecartsOnSide(world, pos, sensitivity, Down)
               + GetMinecartsOnSide(world, pos, sensitivity, Up)
               + GetMinecartsOnSide(world, pos, sensitivity, North)
               + GetMinecartsOnSide(world, pos, sensitivity, South)
               + GetMinecartsOnSide(world, pos, sensitivity, West)
               + GetMinecartsOnSide(world, pos, sensitivity, East)
  {
    assert SideLists(world, pos, sensitivity, 1) == GetMinecartsOnSide(world, pos, sensitivity, Down);
    assert SideLists(world, pos, sensitivity, 2) == SideLists(world, pos, sensitivity, 1) + GetMinecartsOnSide(world, pos, sensitivity, Up);
    assert SideLists(world, pos, sensitivity, 3) == SideLists(world, pos, sensitivity, 2) + GetMinecartsOnSide(world, pos, sensitivity, North);
    assert SideLists(world, pos, sensitivity, 4) == SideLists(world, pos, sensitivity, 3) + GetMinecartsOnSide(world, pos, sensitivity, South);
    assert SideLists(world, pos, sensitivity, 5) == SideLists(world, pos, sensitivity, 4) + GetMinecartsOnSide(world, pos, sensitivity, West);
    SideLists(world, pos, sensitivity, 6)
  }

  /** A cart is in the all-sides list exactly when it is in one of the six side lists. */
  lemma AllSidesMembership(world: World, pos: Pos, sensitivity: real, c: Cart)
    ensures c in GetMinecartsOnAllSides(world, pos, sensitivity) <==>
      exists d :: d != Unknown && c in GetMinecartsOnSide(world, pos, sensitivity, d)
  {
    var down := GetMinecartsOnSide(world, pos, sensitivity, Down);
    var up := GetMinecartsOnSide(world, pos, sensitivity, Up);
    var north := GetMinecartsOnSide(world, pos, sensitivity, North);
    var south := GetMinecartsOnSide(world, pos, sensitivity, South);
    var west := GetMinecartsOnSide(world, pos, sensitivity, West);
    var east := GetMinecartsOnSide(world, pos, sensitivity, East);
    assert c in GetMinecartsOnAllSides(world, pos, sensitivity) <==>
      c in down || c in up || c in north || c in south || c in west || c in east;
  }

  /** isMinecartOnAnySide (typed): whether some cart on the six sides passes the test,
      any cart when the type is null. */
  function IsMinecartOnAnySideOfType(world: World, pos: Pos, sensitivity: real, t: Option<CartKind>, subclass: bool): (b: bool)
    ensures b <==> exists c :: c in GetMinecartsOnAllSides(world, pos, sensitivity) && Matches(c, t, subclass)
  {
    var carts := GetMinecartsOnAllSides(world, pos, sensitivity);
    if t.None? then
      assert |carts| > 0 ==> carts[0] in carts;
      |carts| > 0
    else
      assert (exists i :: 0 <= i < |carts| && ClassRule(carts[i], t.value, subclass))
         <==> (exists c :: c in carts && ClassRule(c, t.value, subclass));
      exists i :: 0 <= i < |carts| && ClassRule(carts[i], t.value, subclass)
  }

  /** isMinecartOnAnySide (untyped). */
  function IsMinecartOnAnySide(world: World, pos: Pos, sensitivity: real): (b: bool)
    ensures b <==> |GetMinecartsOnAllSides(world, pos, sensitivity)| > 0
  {
    IsMinecartOnAnySideOfType(world, pos, sensitivity, None, true)
  }

  /** A matching cart is on some side exactly when it is on one particular side. */
  lemma AnySideIffSomeSide(world: World, pos: Pos, sensitivity: real, t: Option<CartKind>, subclass: bool)
    ensures IsMinecartOnAnySideOfType(world, pos, sensitivity, t, subclass) <==>
      exists d :: d != Unknown && IsMinecartOnSideOfType(world, pos, sensitivity, d, t, subclass)
  {
    if IsMinecartOnAnySideOfType(world, pos, sensitivity, t, subclass) {
      var c :| c in GetMinecartsOnAllSides(world, pos, sensitivity) && Matches(c, t, subclass);
      AllSidesMembership(world, pos, sensitivity, c);
      var d :| d != Unknown && c in GetMinecartsOnSide(world, pos, sensitivity, d);
      assert IsMinecartOnSideOfType(world, pos, sensitivity, d, t, subclass);
    }
    forall d | d != Unknown && IsMinecartOnSideOfType(world, pos, sensitivity, d, t, subclass)
      ensures IsMinecartOnAnySideOfType(world, pos, sensitivity, t, subclass)
    {
      var c :| c in GetMinecartsOnSide(world, pos, sensitivity, d) && Matches(c, t, subclass);
      AllSidesMembership(world, pos, sensitivity, c);
    }
  }

  /** With a type, the typed all-sides list keeps exactly the carts passing the class
      test, as often and in the order the untyped list has them. */
  lemma AllSidesOfTypeKeepsExactly(world: World, pos: Pos, sensitivity: real, t: CartKind, subclass: bool)
    ensures var r := GetMinecartsOnAllSidesOfType(world, pos, sensitivity, Some(t), subclass);
      r.Success? && KeepsExactly(ClassMatcher(t, subclass), r.value, GetMinecartsOnAllSides(world, pos, sensitivity))
  {
    FilterKeepsExactly(ClassMatcher(t, subclass), GetMinecartsOnAllSides(world, pos, sensitivity));
  }

  /** getMinecartsOnAllSides (typed): the untyped all-sides list filtered by the type
      test, order kept. A null type throws as soon as the test runs with subclass set,
      and otherwise matches nothing. */
  function GetMinecartsOnAllSidesOfType(world: World, pos: Pos, sensitivity: real,
                                        t: Option<CartKind>, subclass: bool): (r: Result<seq<Cart>, LocatorError>)
    ensures t.Some? ==> r.Success? && forall c :: c in r.value <==>
      c in GetMinecartsOnAllSides(world, pos, sensitivity) && ClassRule(c, t.value, subclass)
    ensures t.None? ==> (r.Failure? <==> subclass && |GetMinecartsOnAllSides(world, pos, sensitivity)| > 0)
    ensures t.None? && r.Success? ==> r.value == []
  {
    var carts := GetMinecartsOnAllSides(world, pos, sensitivity);
    match t
    case Some(kind) => Success(Filter(ClassMatcher(kind, subclass), carts))
    case None => if subclass && |carts| > 0 then Failure(NullType) else Success([])
  }

  /** The typed all-sides list is the six typed side lists concatenated in order. */
  lemma AllSidesOfTypeBySide(world: World, pos: Pos, sensitivity: real, t: CartKind, subclass: bool)
    ensures var keep := ClassMatcher(t, subclass);
      GetMinecartsOnAllSidesOfType(world, pos, sensitivity, Some(t), subclass) == Success(
          Filter(keep, GetMinecartsOnSide(world, pos, sensitivity, Down))
        + Filter(keep, GetMinecartsOnSide(world, pos, sensitivity, Up))
        + Filter(keep, GetMinecartsOnSide(world, pos, sensitivity, North))
        + Filter(keep, GetMinecartsOnSide(world, pos, sensitivity, South))
        + Filter(keep, GetMinecartsOnSide(world, pos, sensitivity, West))
        + Filter(keep, GetMinecartsOnSide(world, pos, sensitivity, East)))
  {
    var keep := ClassMatcher(t, subclass);
    var d := GetMinecartsOnSide(world, pos, sensitivity, Down);
    var u := GetMinecartsOnSide(world, pos, sensitivity, Up);
    var n := GetMinecartsOnSide(world, pos, sensitivity, North);
    var s := GetMinecartsOnSide(world, pos, sensitivity, South);
    var w := GetMinecartsOnSide(world, pos, sensitivity, West);
    var e := GetMinecartsOnSide(world, pos, sensitivity, East);
    FilterConcat(keep, d + u + n + s + w, e);
    FilterConcat(keep, d + u + n + s, w);
    FilterConcat(keep, d + u + n, s);
    FilterConcat(keep, d + u, n);
    FilterConcat(keep, d, u);
  }

  /** Without subclass matching the typed list holds exactly the carts of that very kind. */
  lemma AllSidesOfExactType(world: World, pos: Pos, sensitivity: real, t: CartKind)
    ensures var r := GetMinecartsOnAllSidesOfType(world, pos, sensitivity, Some(t), false);
      r.Success? && forall c :: c in r.value <==> c in GetMinecartsOnAllSides(world, pos, sensitivity) && c.kind == t
  {
  }

  /** With subclass matching on the root type EntityMinecart nothing is filtered out. */
  lemma AllSidesOfRootType(world: World, pos: Pos, sensitivity: real)
    ensures GetMinecartsOnAllSidesOfType(world, pos, sensitivity, Some(Minecart), true)
      == Success(GetMinecartsOnAllSides(world, pos, sensitivity))
  {
    var carts := GetMinecartsOnAllSides(world, pos, sensitivity);
    forall i | 0 <= i < |carts|
      ensures ClassMatcher(Minecart, true)(carts[i])
    {
      IsARoot(carts[i].kind);
    }
    FilterKeepsAll(ClassMatcher(Minecart, true), carts);
  }
}
