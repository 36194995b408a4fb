/** Document identifiers. The store's object ids are abstract; only their
    equality matters. */
module Ids {
  type ProductId = nat
  type CategoryId = nat
  type UserId = nat
  type ItemId = nat
  type OrderId = nat
  type AddressId = nat
}
