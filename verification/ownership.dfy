/** Owner tagging: CartTools.setCartOwner, getCartOwner and doesCartHaveOwner over the
    string entries "owner" and "ownerId" of a cart's persistent entity data. */
module Ownership {
  import opened Wrappers
  import opened Carts

  const OwnerKey: string := "owner"
  const OwnerIdKey: string := "ownerId"
  /** The name getCartOwner reports when no owner name is stored. */
  const UnknownOwner: string := "[Unknown]"

  predicate IsHexDigit(c: char)
  {
    '0' <= c <= '9' || 'a' <= c <= 'f'
  }

  predicate IsDashPosition(i: int)
  {
    i == 8 || i == 13 || i == 18 || i == 23
  }

  /** The text UUID.toString produces: 8-4-4-4-12 lower-case hex digits. */
  predicate IsCanonicalUuid(s: string)
  {
    && |s| == 36
    && forall i :: 0 <= i < |s| ==> if IsDashPosition(i) then s[i] == '-' else IsHexDigit(s[i])
  }

  /** A java.util.UUID, represented by its canonical text. */
  type Uuid = s: string | IsCanonicalUuid(s) witness "00000000-0000-0000-0000-000000000000"

  /** UUID.toString. */
  function UuidToString(u: Uuid): (s: string)
    ensures IsCanonicalUuid(s)
  {
    u
  }

  /** UUID.fromString, which throws on text it cannot read. */
  function ParseUuid(s: string): (r: Option<Uuid>)
    ensures r.Some? <==> IsCanonicalUuid(s)
    ensures r.Some? ==> UuidToString(r.value) == s
  {
    if IsCanonicalUuid(s) then Some(s) else None
  }

  /** Parsing what toString printed gives back the same UUID. */
  lemma UuidRoundTrip(u: Uuid)
    ensures ParseUuid(UuidToString(u)) == Some(u)
  {
  }

  /** A GameProfile: an optional id and an optional name. */
  datatype Profile = Profile(id: Option<Uuid>, name: Option<string>)

  /** The IllegalArgumentException UUID.fromString throws from getCartOwner. */
  datatype OwnerError = MalformedOwnerId(text: string)

  /** The fixed profile of the fake player that drives generic cart placement:
      name "[Railcraft]", id the name-based (type 3) UUID of the bytes of "[Railcraft]". */
  const RailcraftProfile: Profile :=
    Profile(Some("36b629c6-9723-317b-b5d1-ae397f9de350"), Some("[Railcraft]"))

  /** Map `m` and map `m'` agree on key `k`: both lack it, or both hold the same value. */
  predicate SameEntry(m: map<string, string>, m': map<string, string>, k: string)
  {
    (k in m <==> k in m') && (k in m ==> m[k] == m'[k])
  }

  /** setCartOwner(cart, GameProfile). On a client-side cart nothing happens; otherwise
      the name and the id are written when present, and nothing else is touched. */
  function SetCartOwner(cart: Cart, owner: Profile): (r: Cart)
    ensures cart.clientSide ==> r == cart
    ensures r.id == cart.id && r.kind == cart.kind && r.dead == cart.dead && r.clientSide == cart.clientSide
    ensures forall k :: k != OwnerKey && k != OwnerIdKey ==> SameEntry(cart.data, r.data, k)
    ensures !cart.clientSide && owner.name.Some? ==> OwnerKey in r.data && r.data[OwnerKey] == owner.name.value
    ensures cart.clientSide || owner.name.None? ==> SameEntry(cart.data, r.data, OwnerKey)
    ensures !cart.clientSide && owner.id.Some? ==>
      OwnerIdKey in r.data && r.data[OwnerIdKey] == UuidToString(owner.id.value)
    ensures cart.clientSide || owner.id.None? ==> SameEntry(cart.data, r.data, OwnerIdKey)
  {
    if cart.clientSide then cart
    else
      var named := if owner.name.Some? then cart.data[OwnerKey := owner.name.value] else cart.data;
      var tagged := if owner.id.Some? then named[OwnerIdKey := UuidToString(owner.id.value)] else named;
      cart.(data := tagged)
  }

  /** getCartOwner. The two entries are read independently: a missing name reads as
      "[Unknown]", a missing id as no id, and an id that does not parse is an error. */
  function GetCartOwner(cart: Cart): (r: Result<Profile, OwnerError>)
    ensures r.Failure? <==> OwnerIdKey in cart.data && !IsCanonicalUuid(cart.data[OwnerIdKey])
    ensures r.Failure? ==> r.error == MalformedOwnerId(cart.data[OwnerIdKey])
    ensures r.Success? ==> r.value.name.Some?
    ensures r.Success? && OwnerKey !in cart.data ==> r.value.name.value == UnknownOwner
    ensures r.Success? && OwnerKey in cart.data ==> r.value.name.value == cart.data[OwnerKey]
    ensures r.Success? ==> (r.value.id.Some? <==> OwnerIdKey in cart.data)
    ensures r.Success? && r.value.id.Some? ==> UuidToString(r.value.id.value) == cart.data[OwnerIdKey]
  {
    var name := if OwnerKey in cart.data then cart.data[OwnerKey] else UnknownOwner;
    if OwnerIdKey in cart.data then
      match ParseUuid(cart.data[OwnerIdKey])
      case None => Failure(MalformedOwnerId(cart.data[OwnerIdKey]))
      case Some(id) => Success(Profile(Some(id), Some(name)))
    else
      Success(Profile(None, Some(name)))
  }

  /** doesCartHaveOwner: whether an owner name is stored, whatever the id entry holds. */
  function DoesCartHaveOwner(cart: Cart): (b: bool)
    ensures b <==> OwnerKey in cart.data
    ensures !b && GetCartOwner(cart).Success? ==> GetCartOwner(cart).value.name.value == UnknownOwner
  {
    OwnerKey in cart.data
  }

  /** Writing a complete profile and reading it back gives the same profile. */
  lemma SetThenGet(cart: Cart, owner: Profile)
    requires !cart.clientSide
    requires owner.id.Some? && owner.name.Some?
    ensures GetCartOwner(SetCartOwner(cart, owner)) == Success(owner)
    ensures DoesCartHaveOwner(SetCartOwner(cart, owner))
  {
    UuidRoundTrip(owner.id.value);
  }

  /** Re-tagging with the same profile changes nothing further. */
  lemma SetIdempotent(cart: Cart, owner: Profile)
    ensures SetCartOwner(SetCartOwner(cart, owner), owner) == SetCartOwner(cart, owner)
  {
  }

  /** A cart has an owner after tagging exactly when it had one before, or the tagging
      happened on the server with a named profile. */
  lemma HasOwnerAfterSet(cart: Cart, owner: Profile)
    ensures DoesCartHaveOwner(SetCartOwner(cart, owner)) <==>
      DoesCartHaveOwner(cart) || (!cart.clientSide && owner.name.Some?)
  {
  }

  /** The owner flag does not look at the id entry. */
  lemma HasOwnerIgnoresId(cart: Cart, text: string)
    ensures DoesCartHaveOwner(cart.(data := cart.data[OwnerIdKey := text])) == DoesCartHaveOwner(cart)
    ensures DoesCartHaveOwner(cart.(data := cart.data - {OwnerIdKey})) == DoesCartHaveOwner(cart)
  {
  }

  /** A cart whose data holds neither entry reads as "[Unknown]" with no id. */
  lemma UntaggedOwner(cart: Cart)
    requires OwnerKey !in cart.data && OwnerIdKey !in cart.data
    ensures GetCartOwner(cart) == Success(Profile(None, Some(UnknownOwner)))
    ensures !DoesCartHaveOwner(cart)
  {
  }
}
