/**
 * The profile handlers (src/controllers/userController.js) over the user collection.
 * The caller is the authenticated user, identified by `req.user.id`.
 */
module UserController {
  import opened Wrappers
  import opened Ids
  import opened Errors
  import opened Http
  import opened UserModel
  import opened Store
  import Strings

  /** `getUserProfile`: 404 when the authenticated user no longer exists. */
  function GetUserProfile(users: map<Id, User>, userId: Id): (o: Outcome)
    ensures o.Respond? <==> userId in users
    ensures userId !in users ==> o == Fail(404, "User not found")
    ensures userId in users ==> o == Reply(200, "User profile fetched successfully")
  {
    if userId in users then Reply(200, "User profile fetched successfully") else Fail(404, "User not found")
  }

  /**
   * The update validators over the values the handler sends: `name` goes through the
   * schema's `trim` setter and then `required`; `phone` through `required` and
   * `isMobilePhone`.
   */
  function ProfileFailures(name: string, phone: string, isMobilePhone: string -> bool): (r: seq<FieldError>)
    ensures r == [] <==> Strings.Trim(name) != "" && phone != "" && isMobilePhone(phone)
    ensures forall k :: 0 <= k < |r| ==> r[k].path == "name" || r[k].path == "phone"
  {
    NameFailures(Some(name)) + PhoneFailures(Some(phone), isMobilePhone)
  }

  /**
   * `updateUserProfile`: missing fields (400), then the update validators over the
   * trimmed values (400), which run before the user is looked up (404); only `name` and
   * `phone` change.
   */
  method UpdateUserProfile(s: Store, userId: Id, name: Option<string>, phone: Option<string>, isMobilePhone: string -> bool)
    returns (o: Outcome)
    requires s.Valid()
    modifies s
    ensures s.Valid()
    ensures s.carts == old(s.carts) && s.orders == old(s.orders) && s.menu == old(s.menu) && s.nextId == old(s.nextId)
    ensures !Truthy(name) || !Truthy(phone) ==> o == Fail(400, "Name and phone are required") && unchanged(s)
    ensures Truthy(name) && Truthy(phone) ==>
      var n := Strings.Trim(name.value);
      var p := Strings.Trim(phone.value);
      && (ProfileFailures(n, p, isMobilePhone) != [] ==>
            o == Next(ValidationError(ProfileFailures(n, p, isMobilePhone))) && unchanged(s))
      && (ProfileFailures(n, p, isMobilePhone) == [] && userId !in old(s.users) ==>
            o == Fail(404, "User not found") && unchanged(s))
      && (ProfileFailures(n, p, isMobilePhone) == [] && userId in old(s.users) ==>
            && o == Reply(200, "Profile updated successfully")
            && s.users == old(s.users)[userId := old(s.users)[userId].(name := n, phone := p)])
  {
    if !Truthy(name) || !Truthy(phone) {
      return Fail(400, "Name and phone are required");
    }
    o := ApplyProfile(s, userId, Strings.Trim(name.value), Strings.Trim(phone.value), isMobilePhone);
  }

  /** Lines 26-34 given the trimmed values: the validators, then the lookup, then the write. */
  method ApplyProfile(s: Store, userId: Id, n: string, p: string, isMobilePhone: string -> bool) returns (o: Outcome)
    requires s.Valid()
    modifies s
    ensures s.Valid()
    ensures s.carts == old(s.carts) && s.orders == old(s.orders) && s.menu == old(s.menu) && s.nextId == old(s.nextId)
    ensures ProfileFailures(n, p, isMobilePhone) != [] ==>
      o == Next(ValidationError(ProfileFailures(n, p, isMobilePhone))) && unchanged(s)
    ensures ProfileFailures(n, p, isMobilePhone) == [] && userId !in old(s.users) ==>
      o == Fail(404, "User not found") && unchanged(s)
    ensures ProfileFailures(n, p, isMobilePhone) == [] && userId in old(s.users) ==>
      && o == Reply(200, "Profile updated successfully")
      && s.users == old(s.users)[userId := old(s.users)[userId].(name := n, phone := p)]
  {
    var failures := ProfileFailures(n, p, isMobilePhone);
    if failures != [] {
      return Next(ValidationError(failures));
    }
    if userId !in s.users {
      return Fail(404, "User not found");
    }
    s.users := s.users[userId := s.users[userId].(name := n, phone := p)];
    o := Reply(200, "Profile updated successfully");
  }

  /** An accepted profile update stores values that are already trimmed and non-empty. */
  lemma ProfileUpdateStoresTrimmed(name: string, phone: string, isMobilePhone: string -> bool)
    requires ProfileFailures(Strings.Trim(name), Strings.Trim(phone), isMobilePhone) == []
    ensures Strings.Trim(Strings.Trim(name)) == Strings.Trim(name) != ""
    ensures Strings.Trim(Strings.Trim(phone)) == Strings.Trim(phone) != ""
    ensures isMobilePhone(Strings.Trim(phone))
  {
    Strings.TrimIdempotent(name);
    Strings.TrimIdempotent(phone);
  }

  /** `deleteUser`: 200 whether or not the user existed; the user's cart and orders stay. */
  method DeleteUser(s: Store, userId: Id) returns (o: Outcome)
    requires s.Valid()
    modifies s
    ensures s.Valid()
    ensures s.carts == old(s.carts) && s.orders == old(s.orders) && s.menu == old(s.menu) && s.nextId == old(s.nextId)
    ensures o == Reply(200, "User deleted successfully")
    ensures s.users == old(s.users) - {userId}
  {
    s.users := s.users - {userId};
    o := Reply(200, "User deleted successfully");
  }
}
