/** The account handlers of server/src/controllers/authController.ts that
    change a user's document: registration with its duplicate-email check,
    the address sub-list with its single-default rule, and the wishlist. */
module AuthController {
  import opened Wrappers
  import opened Ids
  import opened Seqs
  import opened Users
  import opened Db

  /** What `registerValidation` lets through: a name of 2 to 50 characters,
      an email and a password of at least 6 characters. */
  predicate RegistrationValid(name: string, email: string, password: string)
  {
    2 <= |name| <= 50 && email != "" && |password| >= 6
  }

  /** Some stored user already has this email. */
  predicate EmailTaken(users: map<UserId, User>, email: string)
  {
    exists u :: u in users && users[u].email == email
  }

  /** POST /api/auth/register. A new account has the role `user`, no
      addresses and an empty wishlist. */
  method Register(db: Store, name: string, email: string, password: string, newId: UserId) returns (code: int)
    requires db.Valid() && newId !in db.users
    modifies db`users
    ensures db.Valid()
    ensures code != 201 ==> db.users == old(db.users)
    ensures !RegistrationValid(name, email, password) ==> code == 400
    ensures RegistrationValid(name, email, password) && EmailTaken(old(db.users), email) ==> code == 400
    ensures RegistrationValid(name, email, password) && !EmailTaken(old(db.users), email) ==>
      code == 201 && db.users == old(db.users)[newId := User(name, email, Customer, [], [])]
    ensures code == 201 ==> db.users.Keys == old(db.users).Keys + {newId}
  {
    if !RegistrationValid(name, email, password) {
      return 400;
    }
    if EmailTaken(db.users, email) {
      return 400;
    }
    db.users := db.users[newId := User(name, email, Customer, [], [])];
    code := 201;
  }

  /** Every address with its `isDefault` flag cleared. */
  function Undefaulted(addrs: seq<Address>): (r: seq<Address>)
    ensures |r| == |addrs|
    ensures forall k :: 0 <= k < |addrs| ==> r[k] == addrs[k].(isDefault := false)
  {
    seq(|addrs|, k requires 0 <= k < |addrs| => addrs[k].(isDefault := false))
  }

  /** `addresses.forEach(addr => { addr.isDefault = false; })`. */
  method ClearDefaults(addrs: seq<Address>) returns (r: seq<Address>)
    ensures r == Undefaulted(addrs)
    ensures forall k :: 0 <= k < |r| ==> !r[k].isDefault
  {
    r := addrs;
    var i := 0;
    while i < |r|
      invariant 0 <= i <= |r| && |r| == |addrs|
      invariant forall k :: 0 <= k < i ==> r[k] == addrs[k].(isDefault := false)
      invariant forall k :: i <= k < |r| ==> r[k] == addrs[k]
    {
      r := r[i := r[i].(isDefault := false)];
      i := i + 1;
    }
  }

  /** The address list after `addAddress`: prior defaults cleared when the
      list was empty or the new address is the default, then the new
      address appended with the flag it was given. */
  function AddressesAfterAdd(addrs: seq<Address>, info: AddressInfo, isDefault: bool, id: AddressId): seq<Address>
  {
    (if |addrs| == 0 || isDefault then Undefaulted(addrs) else addrs) + [Address(id, info, isDefault)]
  }

  /** Adding keeps at most one default, appends the new address last, and a
      non-default addition into a non-empty list changes no prior flag. */
  lemma AddAddressShape(addrs: seq<Address>, info: AddressInfo, isDefault: bool, id: AddressId)
    requires AtMostOneDefault(addrs)
    ensures var r := AddressesAfterAdd(addrs, info, isDefault, id);
      AtMostOneDefault(r) && |r| == |addrs| + 1 && r[|addrs|] == Address(id, info, isDefault)
      && (isDefault ==> forall k :: 0 <= k < |addrs| ==> !r[k].isDefault)
      && (!isDefault && |addrs| > 0 ==> r[..|addrs|] == addrs)
  {
    var r := AddressesAfterAdd(addrs, info, isDefault, id);
    var prior := if |addrs| == 0 || isDefault then Undefaulted(addrs) else addrs;
    assert r[..|addrs|] == prior;
    forall i, j | 0 <= i < j < |r| && r[i].isDefault ensures !r[j].isDefault {
      assert r[i] == prior[i];
    }
  }

  /** The comment above the code says a first address becomes the default,
      but the flag is left as given: a first address added without
      `isDefault` is not the default. */
  lemma FirstAddressNotDefault(info: AddressInfo, id: AddressId)
    ensures AddressesAfterAdd([], info, false, id) == [Address(id, info, false)]
  {
  }

  /** The store after replacing user `u`'s document keeps every other user
      and every email. */
  lemma ReplaceUserValid(users: map<UserId, User>, u: UserId, v: User)
    requires EmailsDistinct(users) && u in users && v.email == users[u].email
    ensures EmailsDistinct(users[u := v])
  {
  }

  /** POST /api/auth/addresses. An absent `isDefault` is false. */
  method AddAddress(db: Store, user: UserId, info: AddressInfo, isDefault: bool, newId: AddressId) returns (code: int)
    requires db.Valid()
    modifies db`users
    ensures db.Valid()
    ensures code != 201 ==> db.users == old(db.users)
    ensures user !in old(db.users) ==> code == 404
    ensures user in old(db.users) && !ValidAddressInfo(info) ==> code == 500
    ensures user in old(db.users) && ValidAddressInfo(info) ==>
      code == 201 && db.users == old(db.users)[user :=
        old(db.users)[user].(addresses := AddressesAfterAdd(old(db.users)[user].addresses, info, isDefault, newId))]
    ensures user in old(db.users) && AtMostOneDefault(old(db.users)[user].addresses) ==> AtMostOneDefault(db.users[user].addresses)
  {
    if user !in db.users {
      return 404;
    }
    var u := db.users[user];
    var addrs := u.addresses;
    if |addrs| == 0 || isDefault {
      addrs := ClearDefaults(addrs);
    }
    addrs := addrs + [Address(newId, info, isDefault)];
    if !ValidAddressInfo(info) {
      return 500;
    }
    if AtMostOneDefault(u.addresses) {
      AddAddressShape(u.addresses, info, isDefault, newId);
    }
    ReplaceUserValid(db.users, user, u.(addresses := addrs));
    db.users := db.users[user := u.(addresses := addrs)];
    code := 201;
  }

  /** An update body: each field it names replaces the address's field. */
  datatype AddressPatch = AddressPatch(
    fullName: Option<string>, street: Option<string>, city: Option<string>, state: Option<string>,
    zipCode: Option<string>, country: Option<string>, phone: Option<string>, isDefault: Option<bool>)

  /** `Object.assign(address, body)`: every field the body names is
      replaced, the id and every other field stay. */
  function Assigned(a: Address, p: AddressPatch): (r: Address)
    ensures r.id == a.id
    ensures r.isDefault == p.isDefault.GetOr(a.isDefault)
    ensures r.info.fullName == p.fullName.GetOr(a.info.fullName) && r.info.street == p.street.GetOr(a.info.street)
      && r.info.city == p.city.GetOr(a.info.city) && r.info.state == p.state.GetOr(a.info.state)
      && r.info.zipCode == p.zipCode.GetOr(a.info.zipCode) && r.info.country == p.country.GetOr(a.info.country)
      && r.info.phone == p.phone.GetOr(a.info.phone)
    ensures p == AddressPatch(None, None, None, None, None, None, None, None) ==> r == a
  {
    Address(a.id,
      AddressInfo(p.fullName.GetOr(a.info.fullName), p.street.GetOr(a.info.street), p.city.GetOr(a.info.city),
                  p.state.GetOr(a.info.state), p.zipCode.GetOr(a.info.zipCode), p.country.GetOr(a.info.country),
                  p.phone.GetOr(a.info.phone)),
      p.isDefault.GetOr(a.isDefault))
  }

  /** Assigning the same body twice is assigning it once. */
  lemma AssignTwice(a: Address, p: AddressPatch)
    ensures Assigned(Assigned(a, p), p) == Assigned(a, p)
  {
  }

  /** The address list after `updateAddress` on position `j`. */
  function AddressesAfterUpdate(addrs: seq<Address>, j: nat, p: AddressPatch): (r: seq<Address>)
    requires j < |addrs|
    ensures |r| == |addrs|
  {
    var base := if p.isDefault == Some(true) then Undefaulted(addrs) else addrs;
    base[j := Assigned(base[j], p)]
  }

  /** Updating keeps at most one default. With `isDefault` true the target
      becomes the only default; the target takes the body's fields and
      every other address keeps its details. */
  lemma UpdateAddressShape(addrs: seq<Address>, j: nat, p: AddressPatch)
    requires AtMostOneDefault(addrs) && j < |addrs|
    ensures var r := AddressesAfterUpdate(addrs, j, p);
      AtMostOneDefault(r)
      && r[j] == Assigned(addrs[j], p)
      && (p.isDefault == Some(true) ==> r[j].isDefault && forall k :: 0 <= k < |r| && k != j ==> !r[k].isDefault)
      && (p.isDefault == Some(true) ==> forall k :: 0 <= k < |r| && k != j ==> r[k] == addrs[k].(isDefault := false))
      && (p.isDefault != Some(true) ==> forall k :: 0 <= k < |r| && k != j ==> r[k] == addrs[k])
      && forall k :: 0 <= k < |r| && k != j ==> r[k].info == addrs[k].info && r[k].id == addrs[k].id
  {
  }

  /** PUT /api/auth/addresses/:addressId. */
  method UpdateAddress(db: Store, user: UserId, addressId: AddressId, p: AddressPatch) returns (code: int)
    requires db.Valid()
    modifies db`users
    ensures db.Valid()
    ensures code != 200 ==> db.users == old(db.users)
    ensures user !in old(db.users) ==> code == 404
    ensures user in old(db.users) ==>
      var addrs := old(db.users)[user].addresses;
      match FirstIndex(addrs, (a: Address) => a.id == addressId)
      case None => code == 404
      case Some(j) =>
        var r := AddressesAfterUpdate(addrs, j, p);
        if ValidAddressInfo(r[j].info) then
          code == 200 && db.users == old(db.users)[user := old(db.users)[user].(addresses := r)]
        else code == 500
    ensures user in old(db.users) && AtMostOneDefault(old(db.users)[user].addresses) ==> AtMostOneDefault(db.users[user].addresses)
  {
    if user !in db.users {
      return 404;
    }
    var u := db.users[user];
    var j := FirstIndex(u.addresses, (a: Address) => a.id == addressId);
    if j.None? {
      return 404;
    }
    var addrs := u.addresses;
    if p.isDefault == Some(true) {
      addrs := ClearDefaults(addrs);
    }
    addrs := addrs[j.value := Assigned(addrs[j.value], p)];
    if !ValidAddressInfo(addrs[j.value].info) {
      return 500;
    }
    if AtMostOneDefault(u.addresses) {
      UpdateAddressShape(u.addresses, j.value, p);
    }
    ReplaceUserValid(db.users, user, u.(addresses := addrs));
    db.users := db.users[user := u.(addresses := addrs)];
    code := 200;
  }

  /** The addresses whose id differs. */
  function AddressesAfterDelete(addrs: seq<Address>, addressId: AddressId): seq<Address>
  {
    Filter(addrs, (a: Address) => a.id != addressId)
  }

  /** Deleting keeps at most one default. */
  lemma {:induction false} DeleteKeepsOneDefault(addrs: seq<Address>, addressId: AddressId)
    requires AtMostOneDefault(addrs)
    ensures AtMostOneDefault(AddressesAfterDelete(addrs, addressId))
  {
    if addrs != [] {
      var tail := addrs[1..];
      DeleteKeepsOneDefault(tail, addressId);
      var t := AddressesAfterDelete(tail, addressId);
      assert AddressesAfterDelete(addrs, addressId) == if addrs[0].id != addressId then [addrs[0]] + t else t;
      if addrs[0].id != addressId && addrs[0].isDefault {
        forall k | 0 <= k < |t| ensures !t[k].isDefault {
          assert t[k] in multiset(t);
          var a :| 0 <= a < |tail| && tail[a] == t[k];
          assert addrs[a + 1] == t[k];
        }
        var r := [addrs[0]] + t;
        forall i, j | 0 <= i < j < |r| && r[i].isDefault ensures !r[j].isDefault {
          assert r[j] == t[j - 1];
        }
      }
    }
  }

  /** Deleting keeps exactly the other addresses, in order; an unknown id
      keeps the list. */
  lemma DeleteAddressShape(addrs: seq<Address>, addressId: AddressId)
    requires AtMostOneDefault(addrs)
    ensures var r := AddressesAfterDelete(addrs, addressId);
      AtMostOneDefault(r) && (forall k :: 0 <= k < |r| ==> r[k].id != addressId)
      && (forall k :: 0 <= k < |addrs| && addrs[k].id != addressId ==> addrs[k] in r)
    ensures (forall k :: 0 <= k < |addrs| ==> addrs[k].id != addressId) ==> AddressesAfterDelete(addrs, addressId) == addrs
  {
    DeleteKeepsOneDefault(addrs, addressId);
    if forall k :: 0 <= k < |addrs| ==> addrs[k].id != addressId {
      FilterKeepsAll(addrs, (a: Address) => a.id != addressId);
    }
  }

  /** DELETE /api/auth/addresses/:addressId. */
  method DeleteAddress(db: Store, user: UserId, addressId: AddressId) returns (code: int)
    requires db.Valid()
    modifies db`users
    ensures db.Valid()
    ensures user !in old(db.users) ==> code == 404 && db.users == old(db.users)
    ensures user in old(db.users) ==>
      code == 200 && db.users == old(db.users)[user :=
        old(db.users)[user].(addresses := AddressesAfterDelete(old(db.users)[user].addresses, addressId))]
    ensures user in old(db.users) && AtMostOneDefault(old(db.users)[user].addresses) ==> AtMostOneDefault(db.users[user].addresses)
  {
    if user !in db.users {
      return 404;
    }
    var u := db.users[user];
    var addrs := AddressesAfterDelete(u.addresses, addressId);
    if AtMostOneDefault(u.addresses) {
      DeleteAddressShape(u.addresses, addressId);
    }
    ReplaceUserValid(db.users, user, u.(addresses := addrs));
    db.users := db.users[user := u.(addresses := addrs)];
    code := 200;
  }

  /** The wishlist after a toggle: the first occurrence removed if present,
      else the product appended. */
  function Toggled(w: seq<ProductId>, pid: ProductId): seq<ProductId>
  {
    match FirstIndex(w, (x: ProductId) => x == pid)
    case Some(i) => RemoveAt(w, i)
    case None => w + [pid]
  }

  /** No product appears twice. */
  predicate NoDuplicates(w: seq<ProductId>)
  {
    forall i, j :: 0 <= i < j < |w| ==> w[i] != w[j]
  }

  /** Toggling flips membership and keeps the list free of duplicates. */
  lemma ToggleFlips(w: seq<ProductId>, pid: ProductId)
    requires NoDuplicates(w)
    ensures NoDuplicates(Toggled(w, pid))
    ensures pid in Toggled(w, pid) <==> pid !in w
    ensures forall x :: x != pid ==> (x in Toggled(w, pid) <==> x in w)
  {
    var r := Toggled(w, pid);
    match FirstIndex(w, (x: ProductId) => x == pid)
    case Some(i) =>
      assert w == w[..i] + [w[i]] + w[i + 1..];
      assert r == w[..i] + w[i + 1..];
    case None =>
  }

  /** Toggling an absent product twice restores the list. */
  lemma ToggleTwice(w: seq<ProductId>, pid: ProductId)
    requires pid !in w
    ensures Toggled(Toggled(w, pid), pid) == w
  {
    var once := w + [pid];
    assert FirstIndex(w, (x: ProductId) => x == pid).None?;
    assert once[|w|] == pid;
    assert forall k :: 0 <= k < |w| ==> once[k] == w[k] && w[k] != pid;
    assert FirstIndex(once, (x: ProductId) => x == pid) == Some(|w|);
    assert RemoveAt(once, |w|) == w;
  }

  /** POST /api/auth/wishlist/:productId. */
  method ToggleWishlist(db: Store, user: UserId, pid: ProductId) returns (code: int)
    requires db.Valid()
    modifies db`users
    ensures db.Valid()
    ensures user !in old(db.users) ==> code == 404 && db.users == old(db.users)
    ensures user in old(db.users) ==>
      code == 200 && db.users == old(db.users)[user := old(db.users)[user].(wishlist := Toggled(old(db.users)[user].wishlist, pid))]
  {
    if user !in db.users {
      return 404;
    }
    var u := db.users[user];
    var i := FirstIndex(u.wishlist, (x: ProductId) => x == pid);
    var w := u.wishlist;
    if i.Some? {
      w := RemoveAt(w, i.value);
    } else {
      w := w + [pid];
    }
    ReplaceUserValid(db.users, user, u.(wishlist := w));
    db.users := db.users[user := u.(wishlist := w)];
    code := 200;
  }
}
