/** CartTools.offerOrDropItem: offer a stack to the linked carts, drop what is refused. */
module Transfer {
  import opened Wrappers
  import opened Carts
  import opened Items

  /** An item entity dropped by a cart (Entity.entityDropItem): the stack and the
      height above the cart it appears at. */
  datatype Drop = Drop(stack: ItemStack, offsetY: real)

  /** offerOrDropItem drops refused items one block above the cart. */
  const DropOffsetY: real := 1.0

  /** offerOrDropItem. `pushStack` is the transfer helper's pushStack: it returns what the
      linked carts did not take. That remainder is dropped, exactly as returned, when it
      exists and holds at least one item; otherwise nothing is dropped. */
  function OfferOrDropItem(pushStack: (Cart, Option<ItemStack>) -> Option<ItemStack>,
                           cart: Cart, stack: Option<ItemStack>): (r: Option<Drop>)
    ensures r.Some? <==> pushStack(cart, stack).Some? && pushStack(cart, stack).value.stackSize > 0
    ensures r.Some? ==> r.value.stack == pushStack(cart, stack).value && r.value.offsetY == DropOffsetY
  {
    var remainder := pushStack(cart, stack);
    if remainder.Some? && remainder.value.stackSize > 0 then Some(Drop(remainder.value, DropOffsetY))
    else None
  }

  /** A stack nobody takes is dropped whole, once. */
  lemma RefusedStackDroppedWhole(pushStack: (Cart, Option<ItemStack>) -> Option<ItemStack>,
                                 cart: Cart, stack: ItemStack)
    requires pushStack(cart, Some(stack)) == Some(stack)
    requires stack.stackSize > 0
    ensures OfferOrDropItem(pushStack, cart, Some(stack)) == Some(Drop(stack, DropOffsetY))
  {
  }

  /** A stack taken completely drops nothing. */
  lemma AcceptedStackNotDropped(pushStack: (Cart, Option<ItemStack>) -> Option<ItemStack>,
                                cart: Cart, stack: Option<ItemStack>)
    requires pushStack(cart, stack).None? || pushStack(cart, stack).value.stackSize <= 0
    ensures OfferOrDropItem(pushStack, cart, stack).None?
  {
  }
}
