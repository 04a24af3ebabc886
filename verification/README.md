# CartTools, modelled in Dafny

This project models the statable logic of Railcraft's `CartTools` API class
(`mods/railcraft/api/carts/CartTools.java`). That logic covers five things:

- finding minecart entities in and around a block position;
- the class test of the typed queries;
- tagging carts with an owner in their persistent entity data;
- placing a cart from an item;
- offering an item stack to linked carts, dropping what they refuse.

Everything is modelled with immutable datatypes and pure functions. The host
engine enters only as values passed in:

- The world is a `Locator.World`. It holds the spatial index of minecart
  entities (`getEntitiesWithinAABB`), as a function from a box to a sequence of
  carts in the index's own order. It also holds the track predicate
  (`TrackTools.isTrackAt`).
- The two item behaviours placement depends on are fields of a
  `Spawner.Engine`. These are `IMinecartItem.placeCart`, and
  `ItemMinecart.onItemUse` run by a fake player.
- The transfer helper's `pushStack` is a function parameter of
  `Transfer.OfferOrDropItem`.

Java's `null` becomes `Wrappers.Option` where the code tests for it or returns
it (item stacks, owners, types, query results). The `world`, `pos`, `side` and
`cart` arguments are taken as non-null. Exceptions that escape a call become
`Wrappers.Result`. Mutating a cart's entity data becomes a function that
returns the updated cart.

Modules, in dependency order:

- `Wrappers`: `Option` and `Result`.
- `Seqs`: order-preserving filter, first match, and subsequence (`Embeds`).
  `KeepsExactly(p, r, s)` says that `r` holds the elements of `s` that satisfy
  `p`, each as often as in `s` and in `s`'s order. `KeepsExactlyIsFilter`
  proves that exactly one sequence meets this, the filter.
- `Geometry`: block positions, `ForgeDirection` (including `UNKNOWN`) and the
  one-step neighbour functions.
- `Carts`: the cart record, a closed set of cart kinds with an is-a relation,
  and the type test `(subclass && type.isInstance(cart)) || cart.getClass() == type`.
- `Ownership`: the `"owner"` / `"ownerId"` entries of the entity data.
- `Locator`: search boxes, the live-cart queries, the side and all-sides queries
  and their typed forms.
- `Items`, `Spawner`: `placeCart`.
- `Transfer`: `offerOrDropItem`.

Where the code and its documented intent part ways:

- `getMinecartsOnSide` (line 255) and `getMinecartsAt` (line 287) use variables
  `i`, `j`, `k` that are not declared in those methods. The model reads them as
  the coordinates of the `pos` parameter, which is what the signatures intend.
- `getMinecartsOnSide` (line 255) also calls a five-argument
  `getMinecartsAt(world, x, y, z, sensitivity)` that the file does not declare.
  The model routes that call to the `BlockPos` overload at line 285, applied to
  the neighbouring cell.
- The typed `getMinecartsOnAllSides` (lines 207-219) has no `type == null`
  guard, unlike the other typed queries. With a null type and `subclass` set,
  `type.isInstance` throws `NullPointerException` as soon as one cart is
  examined. With `subclass` clear, nothing matches. The model keeps both
  behaviours (`Locator.GetMinecartsOnAllSidesOfType`).

## Model

| member | source | states |
|---|---|---|
| `Geometry.GetOrientation` | mods/railcraft/api/carts/CartTools.java:166-168 | side indices 0..5 name the six valid directions in ordinal order; any other index names UNKNOWN |
| `Geometry.XOnSide` | mods/railcraft/api/carts/CartTools.java:232-241 | the x coordinate moves by the direction's x unit component: +1 east, -1 west, unchanged otherwise |
| `Geometry.YOnSide` | mods/railcraft/api/carts/CartTools.java:221-230 | the y coordinate moves by the direction's y unit component: +1 up, -1 down, unchanged otherwise |
| `Geometry.ZOnSide` | mods/railcraft/api/carts/CartTools.java:243-252 | the z coordinate moves by the direction's z unit component: +1 south, -1 north, unchanged otherwise |
| `Geometry.Offset` | mods/railcraft/api/carts/CartTools.java:254-256 | each valid direction moves exactly one coordinate by exactly one (UP y+1, DOWN y-1, EAST x+1, WEST x-1, SOUTH z+1, NORTH z-1); UNKNOWN stays in place |
| `Geometry.OffsetRoundTrip` | mods/railcraft/api/carts/CartTools.java:221-252 | stepping to a side and then to its opposite returns to the starting cell |
| `Geometry.SideCellsDistinct` | mods/railcraft/api/carts/CartTools.java:198-205 | the six probed neighbours are six different cells, none of them the cell itself |
| `Geometry.OrientationsEnumerate` | mods/railcraft/api/carts/CartTools.java:200-202 | the side loop 0..5 visits every valid direction exactly once |
| `Carts.IsATransitive` | mods/railcraft/api/carts/CartTools.java:175 | the is-a relation behind `type.isInstance` is transitive |
| `Carts.IsADepth` | mods/railcraft/api/carts/CartTools.java:175 | a supertype is never deeper in the hierarchy than its subtype, and equally deep only when it is the same kind |
| `Carts.IsAAntisymmetric` | mods/railcraft/api/carts/CartTools.java:175 | two kinds that are each a subtype of the other are the same kind |
| `Carts.IsARoot` | mods/railcraft/api/carts/CartTools.java:175 | every cart kind is an EntityMinecart |
| `Carts.ClassRule` | mods/railcraft/api/carts/CartTools.java:175 | the class test for a non-null type: with subclass set it is is-a, with it clear only the exact class matches, and the exact class matches either way |
| `Carts.Matches` | mods/railcraft/api/carts/CartTools.java:275 | the first-match test: a null type matches every cart; otherwise it is the class test, so without subclass only the exact class matches |
| `Seqs.Filter` | mods/railcraft/api/carts/CartTools.java:288-294 | the kept elements all pass the test, and an element is kept iff it occurs in the input and passes |
| `Seqs.FilterKeepsExactly` | mods/railcraft/api/carts/CartTools.java:288-294 | the filter keeps each passing element as often as the input has it, drops every failing one, and keeps the input's order |
| `Seqs.KeepsExactlyIsFilter` | mods/railcraft/api/carts/CartTools.java:288-294 | any sequence that keeps exactly the passing elements in order is the filter, so that description fixes the result |
| `Seqs.EmbedsMultiset` | mods/railcraft/api/carts/CartTools.java:288-294 | a subsequence never holds an element more often than its host |
| `Seqs.FilterConcat` | mods/railcraft/api/carts/CartTools.java:214-217 | filtering a concatenation equals concatenating the filtered parts |
| `Seqs.FilterKeepsAll` | mods/railcraft/api/carts/CartTools.java:214-217 | a filter every element passes returns its input unchanged |
| `Seqs.FirstMatch` | mods/railcraft/api/carts/CartTools.java:274-278 | the result is absent iff no element passes the test; a present result passes and sits at an index before which no element passes |
| `Seqs.FirstMatchIsHeadOfFilter` | mods/railcraft/api/carts/CartTools.java:274-278 | the first match is the head of the order-preserving filter |
| `Ownership.ParseUuid` | mods/railcraft/api/carts/CartTools.java:85 | a UUID is read back iff the text is well formed, and printing the result gives the text back |
| `Ownership.UuidRoundTrip` | mods/railcraft/api/carts/CartTools.java:68 | parsing the text a UUID prints gives back the same UUID |
| `Ownership.SetCartOwner` | mods/railcraft/api/carts/CartTools.java:62-70 | on a client-side cart nothing changes; otherwise the name is written under "owner" and the id text under "ownerId", each only when present; every other key and every absent field keeps its old entry |
| `Ownership.GetCartOwner` | mods/railcraft/api/carts/CartTools.java:77-87 | the call fails iff "ownerId" holds text that is not a UUID; otherwise the name is the stored one or "[Unknown]", and the id is present iff "ownerId" is stored and prints as the stored text |
| `Ownership.DoesCartHaveOwner` | mods/railcraft/api/carts/CartTools.java:94-97 | true iff an owner name is stored; when false, a successful read reports "[Unknown]" |
| `Ownership.SetThenGet` | mods/railcraft/api/carts/CartTools.java:62-87 | on the server, tagging with a complete profile and then reading gives back that profile, and the cart has an owner |
| `Ownership.SetIdempotent` | mods/railcraft/api/carts/CartTools.java:62-70 | tagging twice with the same profile equals tagging once |
| `Ownership.HasOwnerAfterSet` | mods/railcraft/api/carts/CartTools.java:62-97 | after tagging, a cart has an owner iff it had one before or the tag was written on the server with a name |
| `Ownership.HasOwnerIgnoresId` | mods/railcraft/api/carts/CartTools.java:94-97 | writing or removing the "ownerId" entry does not change whether the cart has an owner |
| `Ownership.UntaggedOwner` | mods/railcraft/api/carts/CartTools.java:77-97 | a cart with neither entry reads as "[Unknown]" with no id, and has no owner |
| `Locator.Clamp` | mods/railcraft/api/carts/CartTools.java:286 | the effective sensitivity is min(s, 0.49): at most 0.49, at most s, and one of the two |
| `Locator.CellBox` | mods/railcraft/api/carts/CartTools.java:286-287 | the search box is centred on the cell and has a positive extent on every axis (lower corner strictly below upper); an in-range sensitivity insets every face by exactly that amount |
| `Locator.SpanBox` | mods/railcraft/api/carts/CartTools.java:298 | the box between two corners is normalised: on each axis its bounds are the two corner coordinates, lower first |
| `Locator.GetMinecartsAt` | mods/railcraft/api/carts/CartTools.java:285-295 | every returned cart is live, and a cart is returned iff the index reports it for the search box and it is not dead |
| `Locator.AtKeepsExactlyLive` | mods/railcraft/api/carts/CartTools.java:285-295 | the cell query keeps exactly the live carts of the index query, with multiplicities, in the index's order |
| `Locator.GetMinecartsIn` | mods/railcraft/api/carts/CartTools.java:297-306 | every returned cart is live, and a cart is returned iff the index reports it for the spanned box and it is not dead |
| `Locator.InKeepsExactlyLive` | mods/railcraft/api/carts/CartTools.java:297-306 | the range query keeps exactly the live carts of the index query, in the index's order |
| `Locator.GetMinecartsInSymmetric` | mods/railcraft/api/carts/CartTools.java:297-298 | swapping the two corners does not change the result |
| `Locator.ClampOnce` | mods/railcraft/api/carts/CartTools.java:286 | clamping an already clamped sensitivity changes nothing, and every sensitivity from 0.49 up searches the same box |
| `Locator.GetMinecartsOnSide` | mods/railcraft/api/carts/CartTools.java:254-256 | a cart is returned iff the index reports it for the neighbouring cell's search box and it is not dead |
| `Locator.OnSideProbesNeighbour` | mods/railcraft/api/carts/CartTools.java:254-256 | the side query keeps exactly the live carts of the neighbouring cell's search box; for UNKNOWN it is the cell query itself |
| `Locator.GetMinecartOnSide` | mods/railcraft/api/carts/CartTools.java:262-267 | absent iff the side list is empty; otherwise its first element |
| `Locator.IsMinecartOnSide` | mods/railcraft/api/carts/CartTools.java:258-260 | true iff the neighbouring cell's search box holds a live cart |
| `Locator.GetMinecartOnSideOfType` | mods/railcraft/api/carts/CartTools.java:273-279 | absent iff no cart on the side passes the test (a null type passes all); a present result passes and lies on that side |
| `Locator.IsMinecartOnSideOfType` | mods/railcraft/api/carts/CartTools.java:269-271 | true iff some cart on the side passes the test |
| `Locator.FirstOnSideIsHeadOfFilter` | mods/railcraft/api/carts/CartTools.java:273-279 | the typed first match is the head of the side list filtered by the test |
| `Locator.UntypedOnSideIsNullType` | mods/railcraft/api/carts/CartTools.java:262-279 | the untyped first match equals the typed one with a null type |
| `Locator.IsMinecartAtOfType` | mods/railcraft/api/carts/CartTools.java:185-196 | true iff some live cart in the cell passes the test; with a null type, iff there is any |
| `Locator.IsMinecartAt` | mods/railcraft/api/carts/CartTools.java:181-183 | true iff the index reports a live cart for the cell's search box |
| `Locator.IsMinecartOnRailAtOfType` | mods/railcraft/api/carts/CartTools.java:155-159 | false whenever there is no track at the cell; otherwise iff a live cart there passes the test |
| `Locator.IsMinecartOnRailAt` | mods/railcraft/api/carts/CartTools.java:151-153 | false without track; otherwise the untyped cell query |
| `Locator.GetMinecartsOnAllSides` | mods/railcraft/api/carts/CartTools.java:198-205 | the all-sides list is the side lists concatenated in the order DOWN, UP, NORTH, SOUTH, WEST, EAST, without deduplication |
| `Locator.AllSidesMembership` | mods/railcraft/api/carts/CartTools.java:198-205 | a cart is in the all-sides list iff it is in the list of some valid side |
| `Locator.IsMinecartOnAnySideOfType` | mods/railcraft/api/carts/CartTools.java:165-179 | true iff some cart of the all-sides list passes the test; with a null type, iff the list is non-empty |
| `Locator.IsMinecartOnAnySide` | mods/railcraft/api/carts/CartTools.java:161-163 | true iff the all-sides list is non-empty |
| `Locator.AnySideIffSomeSide` | mods/railcraft/api/carts/CartTools.java:165-179 | a passing cart is on some side iff the typed side query holds for one particular valid side |
| `Locator.GetMinecartsOnAllSidesOfType` | mods/railcraft/api/carts/CartTools.java:207-219 | with a type, a cart is kept iff it is in the all-sides list and passes the test; with a null type it throws iff subclass is set and the list is non-empty, and otherwise returns nothing |
| `Locator.AllSidesOfTypeKeepsExactly` | mods/railcraft/api/carts/CartTools.java:207-219 | with a type, the typed list keeps exactly the passing carts of the untyped all-sides list, with multiplicities, in its order |
| `Locator.AllSidesOfTypeBySide` | mods/railcraft/api/carts/CartTools.java:207-219 | the typed all-sides list is the six typed side lists concatenated in enumeration order |
| `Locator.AllSidesOfExactType` | mods/railcraft/api/carts/CartTools.java:207-219 | without subclass matching, the typed list holds exactly the all-sides carts of that very kind |
| `Locator.AllSidesOfRootType` | mods/railcraft/api/carts/CartTools.java:207-219 | typed on EntityMinecart with subclass matching, the list equals the untyped all-sides list |
| `Spawner.PlaceGeneric` | mods/railcraft/api/carts/CartTools.java:124-136 | a cart comes back iff the fake player's use reports a placement, a live cart is then found at the cell with sensitivity 0.3, and tagging it does not throw (the owner is present or the cart is client-side); it is that first cart tagged with the owner, exactly as setCartOwner leaves it |
| `Spawner.PlaceCart` | mods/railcraft/api/carts/CartTools.java:117-139 | a null stack gives none; a capable item decides the outcome, exceptions included; a generic cart item takes the fake-player path; any other item gives none; only the capable item can let an exception out |
| `Spawner.GenericPlacementRecordsOwner` | mods/railcraft/api/carts/CartTools.java:124-132 | a successful generic placement on the server with a complete profile returns a cart that has an owner and reports that profile |
| `Spawner.NullOwnerOnServerGivesNone` | mods/railcraft/api/carts/CartTools.java:124-136 | on the generic path a null owner on the server makes tagging throw, which the catch turns into none |
| `Spawner.FailedUsePlacesNothing` | mods/railcraft/api/carts/CartTools.java:124-136 | an exception from the item use, or a use that places nothing, gives none |
| `Transfer.OfferOrDropItem` | mods/railcraft/api/carts/CartTools.java:144-149 | something is dropped iff the transfer service returns a remainder with a positive size; the drop is exactly that remainder, one block above the cart |
| `Transfer.RefusedStackDroppedWhole` | mods/railcraft/api/carts/CartTools.java:144-149 | a stack the service hands back whole is dropped whole, once |
| `Transfer.AcceptedStackNotDropped` | mods/railcraft/api/carts/CartTools.java:144-149 | a stack taken completely, or handed back empty, drops nothing |

## Left out

- `getCartSpeedUncapped` and `cartVelocityIsLessThan` (lines 316-322) are not modelled. They are floating-point arithmetic with `Math.sqrt`.
- Sensitivities and box coordinates are exact reals. Java's `float`/`double` rounding is not modelled.
- The host engine is not re-derived. This covers entity search by box, `AxisAlignedBB` overlap, `TrackTools.isTrackAt`, `IMinecartItem.placeCart`, `ItemMinecart.onItemUse` and `FakePlayerFactory`. They are oracle values inside `World` and `Engine`, and the model promises nothing about them beyond what they return.
- `Ownership.ParseUuid` accepts only the canonical lower-case 8-4-4-4-12 text, which is what `UUID.toString` writes. Other spellings that `java.util.UUID.fromString` tolerates are read as malformed.
- The id of the "[Railcraft]" profile is a fixed constant. It is not derived by the MD5 computation of `UUID.nameUUIDFromBytes`.
- Ownership.GetCartOwner: returns a profile for a stored blank "owner" with no "ownerId", where the `GameProfile` constructor throws IllegalArgumentException. That check belongs to the authlib library and is not modelled.
- The entity data is reduced to its string entries. NBT tags of other types under "owner"/"ownerId" are not modelled.
- `getLinkageManager` and the `linkageManager` / `transferHelper` static fields are not modelled, because they are only global plumbing. The transfer service is passed in, so the `NullPointerException` of an unset `transferHelper` is not modelled.
- `setCartOwner(cart, EntityPlayer)` is not modelled, because it only forwards the player's profile to `Ownership.SetCartOwner`.
- The cart kinds form a closed set of the vanilla minecart classes. Cart classes that other mods add are not modelled.
- Ownership.SetCartOwner: takes a present profile. The NullPointerException that a null profile raises on the server is modelled only where placeCart catches it, in `Spawner.PlaceGeneric`.
- The world's entity query and track predicate are total functions. An exception from them inside placeCart's `try` is not modelled.
- Geometry.Offset: coordinates are unbounded integers. The 32-bit wrap of `getXOnSide`/`getYOnSide`/`getZOnSide` (lines 221-252) at `Integer.MAX_VALUE`/`MIN_VALUE`, and of `i + 1` in the box of line 287 (`Locator.CellBox`), are not modelled; the world border keeps block coordinates far from that range. The `world`, `pos`, `side` and `cart` arguments are taken non-null, so the NullPointerException of a null `side` at the `switch` statements (lines 222, 233, 244) is not modelled.
- Owner tagging returns an updated cart value. The placement path returns that tagged value rather than mutating the entity in the world.
