/** User documents (server/src/models/User.ts) as far as the account
    handlers touch them, and the route guard `authorize`. Credentials are
    not part of this model. */
module Users {
  import opened Ids
  import opened Wrappers


  /** The schema's roles 'user' and 'admin'. */
  datatype Role = Customer | Admin

  /** The seven required address fields. */
  datatype AddressInfo = AddressInfo(
    fullName: string, street: string, city: string, state: string,
    zipCode: string, country: string, phone: string)

  datatype Address = Address(id: AddressId, info: AddressInfo, isDefault: bool)

  datatype User = User(
    name: string,
    email: string,
    role: Role,
    addresses: seq<Address>,
    wishlist: seq<ProductId>)

  /** Every required address field is present (a required string may not be empty). */
  predicate ValidAddressInfo(a: AddressInfo)
  {
    a.fullName != "" && a.street != "" && a.city != "" && a.state != ""
    && a.zipCode != "" && a.country != "" && a.phone != ""
  }

  /** The `isDefault` invariant the address handlers maintain. */
  ghost predicate AtMostOneDefault(addrs: seq<Address>)
  {
    forall i, j :: 0 <= i < j < |addrs| && addrs[i].isDefault ==> !addrs[j].isDefault
  }

  /** `authorize(...roles)`: the caller's role is one of the allowed roles. */
  predicate Authorized(role: Role, allowed: set<Role>)
  {
    role in allowed
  }
}
