/**
 * The signed-in customer's profile (Backend/routes/user.js): GET `/me` and PUT `/me`,
 * which replaces the phone and merges the address field by field.
 */
module Profile {
  import opened Wrappers
  import opened Accounts

  /** The address object a PUT body may carry; each field may be absent. */
  datatype AddressBody = AddressBody(line: Option<string>, city: Option<string>, state: Option<string>, pincode: Option<string>)

  /** `new || stored || ""` for every field; stored fields are already strings, so `stored || ""` is `stored`. */
  function MergeAddress(prev: Address, b: AddressBody): (a: Address)
    ensures a.line == (if TruthyString(b.line) then b.line.value else prev.line)
    ensures a.city == (if TruthyString(b.city) then b.city.value else prev.city)
    ensures a.state == (if TruthyString(b.state) then b.state.value else prev.state)
    ensures a.pincode == (if TruthyString(b.pincode) then b.pincode.value else prev.pincode)
  {
    Address(OrString(b.line, prev.line), OrString(b.city, prev.city), OrString(b.state, prev.state), OrString(b.pincode, prev.pincode))
  }

  /** The user after PUT: phone replaced only when truthy, the address merged only when supplied. */
  function UpdatedProfile(u: User, phone: Option<string>, address: Option<AddressBody>): (v: User)
    ensures v.phone == (if TruthyString(phone) then phone.value else u.phone)
    ensures address.None? ==> v.address == u.address
    ensures address.Some? ==> v.address == MergeAddress(u.address, address.value)
    ensures v.name == u.name && v.email == u.email && v.password == u.password
    ensures v.isAdmin == u.isAdmin && v.orders == u.orders && v.createdAt == u.createdAt
  {
    var withPhone := if TruthyString(phone) then u.(phone := phone.value) else u;
    if address.Some? then withPhone.(address := MergeAddress(u.address, address.value)) else withPhone
  }

  /** A field once filled stays filled: the merge never blanks the phone or an address field. */
  lemma UpdateKeepsFilled(u: User, phone: Option<string>, address: Option<AddressBody>)
    ensures var v := UpdatedProfile(u, phone, address);
      (u.phone != "" ==> v.phone != "") && (u.address.line != "" ==> v.address.line != "")
      && (u.address.pincode != "" ==> v.address.pincode != "")
  {
  }

  /** Sending the same update twice leaves the profile as one update does. */
  lemma UpdateIdempotent(u: User, phone: Option<string>, address: Option<AddressBody>)
    ensures UpdatedProfile(UpdatedProfile(u, phone, address), phone, address) == UpdatedProfile(u, phone, address)
  {
  }

  /** A body giving a phone, an address line and a pincode makes the profile complete enough to order. */
  lemma UpdateCompletesProfile(u: User, phone: Option<string>, address: Option<AddressBody>)
    requires TruthyString(phone) && address.Some? && TruthyString(address.value.line) && TruthyString(address.value.pincode)
    ensures ProfileComplete(UpdatedProfile(u, phone, address))
  {
  }

  /** The users collection behind the `/me` routes. */
  class ProfileStore {
    var users: map<string, User>

    constructor(users0: map<string, User>)
      ensures users == users0
    {
      users := users0;
    }

    /** GET `/me`: 401 without an authenticated id, 404 for an unknown user, otherwise the user without password. */
    method Me(userId: Option<string>) returns (r: Reply<PublicUser>)
      ensures userId.None? ==> r == Err(401, "Not authorized. Invalid token.")
      ensures userId.Some? && userId.value !in users ==> r == Err(404, "User not found")
      ensures userId.Some? && userId.value in users ==> r == Ok(WithoutPassword(users[userId.value]))
    {
      if userId.None? {
        return Err(401, "Not authorized. Invalid token.");
      }
      if userId.value !in users {
        return Err(404, "User not found");
      }
      r := Ok(WithoutPassword(users[userId.value]));
    }

    /** PUT `/me`: the same guards, then only that user is rewritten, and the reply omits the password. */
    method UpdateMe(userId: Option<string>, phone: Option<string>, address: Option<AddressBody>) returns (r: Reply<PublicUser>)
      modifies this
      ensures userId.None? ==> r == Err(401, "Not authorized. Invalid token.") && users == old(users)
      ensures userId.Some? && userId.value !in old(users) ==> r == Err(404, "User not found") && users == old(users)
      ensures userId.Some? && userId.value in old(users) ==>
                users == old(users)[userId.value := UpdatedProfile(old(users)[userId.value], phone, address)]
                && r == Ok(WithoutPassword(users[userId.value]))
    {
      if userId.None? {
        return Err(401, "Not authorized. Invalid token.");
      }
      var id := userId.value;
      if id !in users {
        return Err(404, "User not found");
      }
      var user := users[id];
      if TruthyString(phone) {
        user := user.(phone := phone.value);
      }
      if address.Some? {
        user := user.(address := MergeAddress(user.address, address.value));
      }
      users := users[id := user];
      r := Ok(WithoutPassword(users[id]));
    }
  }
}
