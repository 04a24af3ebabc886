/** Items and item stacks, reduced to what cart placement and item transfer look at. */
module Items {

  /** An item type: whether it implements IMinecartItem (the placement capability)
      and whether it extends ItemMinecart (the generic cart item). */
  datatype Item = Item(minecartItem: bool, itemMinecart: bool)

  /** An ItemStack: an item and a stack size (any int, as in Java). */
  datatype ItemStack = ItemStack(item: Item, stackSize: int)
}
