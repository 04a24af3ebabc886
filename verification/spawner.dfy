/** Cart placement: CartTools.placeCart, which turns a cart item into a cart entity. */
module Spawner {
  import opened Wrappers
  import opened Geometry
  import opened Carts
  import opened Ownership
  import opened Locator
  import opened Items

  /** An exception escaping a host call. */
  datatype Thrown = Thrown(message: string)

  /** What ItemMinecart.onItemUse does: it returns whether it placed something together
      with the world as it left it, or it throws. */
  datatype UseOutcome = Used(placed: bool, after: World) | Threw

  /** The host calls placeCart makes: IMinecartItem.placeCart (which may return a cart,
      null, or throw; its owner may be null), and ItemMinecart.onItemUse performed by a
      fake player with the given profile on the given face of a block (placeCart always
      passes hit offsets 0, 0, 0). */
  datatype Engine = Engine(
    placeByCapability: (Option<Profile>, ItemStack, World, Pos) -> Result<Option<Cart>, Thrown>,
    useItem: (ItemStack, Profile, World, Pos, Direction) -> UseOutcome)

  /** The sensitivity used to find the cart just placed. */
  const PlacementSensitivity: real := 0.3

  /** The generic path of placeCart, the body of its `try`: use the item as the
      "[Railcraft]" fake player on the DOWN face at `pos`; if that reports a placement,
      tag the first live cart then found at `pos` and return it. Everything the `try`
      catches gives none: an exception from the use, and the NullPointerException of
      tagging a server-side cart with a null owner. A failed use or an empty cell give
      none too. */
  function PlaceGeneric(engine: Engine, owner: Option<Profile>, stack: ItemStack, world: World, pos: Pos): (r: Option<Cart>)
    ensures var use := engine.useItem(stack, RailcraftProfile, world, pos, Down);
      r.Some? <==>
        && use.Used? && use.placed
        && |GetMinecartsAt(use.after, pos, PlacementSensitivity)| > 0
        && (owner.Some? || GetMinecartsAt(use.after, pos, PlacementSensitivity)[0].clientSide)
    ensures var use := engine.useItem(stack, RailcraftProfile, world, pos, Down);
      r.Some? && use.Used? && |GetMinecartsAt(use.after, pos, PlacementSensitivity)| > 0 ==>
        var first := GetMinecartsAt(use.after, pos, PlacementSensitivity)[0];
        r.value == if owner.Some? then SetCartOwner(first, owner.value) else first
  {
    match engine.useItem(stack, RailcraftProfile, world, pos, Down)
    case Threw => None
    case Used(placed, after) =>
      if !placed then None
      else
        var carts := GetMinecartsAt(after, pos, PlacementSensitivity);
        if |carts| == 0 then None
        else if owner.Some? then Some(SetCartOwner(carts[0], owner.value))
        else if carts[0].clientSide then Some(carts[0])  // setCartOwner returns before reading the owner
        else None  // owner.getName() on a null owner throws, and the catch returns null
  }

  /** placeCart. A null stack gives none. The stack is copied, and the caller's stack is
      never changed (values here are immutable). An item with the placement capability
      decides the outcome itself, exceptions included; a generic cart item takes the
      fake-player path, which never lets an exception out; any other item gives none. */
  function PlaceCart(engine: Engine, owner: Option<Profile>, cart: Option<ItemStack>, world: World, pos: Pos): (r: Result<Option<Cart>, Thrown>)
    ensures cart.None? ==> r == Success(None)
    ensures cart.Some? && cart.value.item.minecartItem ==>
      r == engine.placeByCapability(owner, cart.value, world, pos)
    ensures cart.Some? && !cart.value.item.minecartItem && cart.value.item.itemMinecart ==>
      r == Success(PlaceGeneric(engine, owner, cart.value, world, pos))
    ensures cart.Some? && !cart.value.item.minecartItem && !cart.value.item.itemMinecart ==> r == Success(None)
    ensures r.Failure? ==> cart.Some? && cart.value.item.minecartItem
  {
    if cart.None? then Success(None)
    else
      var copy := cart.value;
      if copy.item.minecartItem then engine.placeByCapability(owner, copy, world, pos)
      else if copy.item.itemMinecart then Success(PlaceGeneric(engine, owner, copy, world, pos))
      else Success(None)
  }

  /** A cart placed through the generic path with a complete owner profile reports that
      owner, provided the located cart lives on the server side. */
  lemma GenericPlacementRecordsOwner(engine: Engine, owner: Profile, stack: ItemStack, world: World, pos: Pos)
    requires !stack.item.minecartItem && stack.item.itemMinecart
    requires owner.id.Some? && owner.name.Some?
    requires engine.useItem(stack, RailcraftProfile, world, pos, Down).Used?
    requires engine.useItem(stack, RailcraftProfile, world, pos, Down).placed
    requires var after := engine.useItem(stack, RailcraftProfile, world, pos, Down).after;
      exists c :: c in after.cartsWithin(CellBox(pos, PlacementSensitivity)) && !c.dead && !c.clientSide
    requires var after := engine.useItem(stack, RailcraftProfile, world, pos, Down).after;
      forall c :: c in after.cartsWithin(CellBox(pos, PlacementSensitivity)) ==> !c.clientSide
    ensures var r := PlaceCart(engine, Some(owner), Some(stack), world, pos);
      r.Success? && r.value.Some? && DoesCartHaveOwner(r.value.value) && GetCartOwner(r.value.value) == Success(owner)
  {
    var after := engine.useItem(stack, RailcraftProfile, world, pos, Down).after;
    var c :| c in after.cartsWithin(CellBox(pos, PlacementSensitivity)) && !c.dead && !c.clientSide;
    assert c in GetMinecartsAt(after, pos, PlacementSensitivity);
    SetThenGet(GetMinecartsAt(after, pos, PlacementSensitivity)[0], owner);
  }

  /** With a null owner, a cart placed on the server is left untagged in the world and
      placeCart reports none. */
  lemma NullOwnerOnServerGivesNone(engine: Engine, stack: ItemStack, world: World, pos: Pos)
    requires !stack.item.minecartItem && stack.item.itemMinecart
    requires var use := engine.useItem(stack, RailcraftProfile, world, pos, Down);
      use.Used? ==> forall c :: c in use.after.cartsWithin(CellBox(pos, PlacementSensitivity)) ==> !c.clientSide
    ensures PlaceCart(engine, None, Some(stack), world, pos) == Success(None)
  {
    var use := engine.useItem(stack, RailcraftProfile, world, pos, Down);
    if use.Used? && use.placed && |GetMinecartsAt(use.after, pos, PlacementSensitivity)| > 0 {
      assert GetMinecartsAt(use.after, pos, PlacementSensitivity)[0] in GetMinecartsAt(use.after, pos, PlacementSensitivity);
    }
  }

  /** An exception from the item use, or a use that places nothing, gives none. */
  lemma FailedUsePlacesNothing(engine: Engine, owner: Option<Profile>, stack: ItemStack, world: World, pos: Pos)
    requires !stack.item.minecartItem && stack.item.itemMinecart
    requires var use := engine.useItem(stack, RailcraftProfile, world, pos, Down);
      use.Threw? || !use.placed
    ensures PlaceCart(engine, owner, Some(stack), world, pos) == Success(None)
  {
  }
}
