/**
 * Customer accounts as the routes read and write them. The User schema itself is not
 * part of this model; a missing string field is represented by "" (falsy, as in
 * JavaScript), and `address` is always present, as Mongoose materialises nested paths.
 */
module Accounts {
  import opened Wrappers

  datatype Address = Address(line: string, city: string, state: string, pincode: string)

  datatype User = User(
    name: string,
    email: string,
    isAdmin: Option<bool>,
    password: string,
    phone: string,
    address: Address,
    orders: Option<int>,
    createdAt: int)

  /** A user as `.select("-password")` returns it. */
  datatype PublicUser = PublicUser(
    name: string,
    email: string,
    isAdmin: Option<bool>,
    phone: string,
    address: Address,
    orders: Option<int>,
    createdAt: int)

  function WithoutPassword(u: User): (p: PublicUser)
    ensures p.name == u.name && p.email == u.email && p.isAdmin == u.isAdmin && p.phone == u.phone
    ensures p.address == u.address && p.orders == u.orders && p.createdAt == u.createdAt
  {
    PublicUser(u.name, u.email, u.isAdmin, u.phone, u.address, u.orders, u.createdAt)
  }

  /** The delivery details an order needs: a phone, an address line and a pincode. */
  predicate ProfileComplete(u: User)
  {
    u.phone != "" && u.address.line != "" && u.address.pincode != ""
  }

  /** `(user.orders || 0) + 1`: a missing counter counts as 0. */
  function NextOrderCount(orders: Option<int>): (n: int)
    ensures orders.None? ==> n == 1
    ensures orders.Some? ==> n == orders.value + 1
  {
    (if orders.Some? then orders.value else 0) + 1
  }
}
