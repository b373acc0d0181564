// The authentication controller: registration with the minor flags it
// derives from the age, login, and access-token refresh. Password hashing,
// token signing and token checking are the libraries' business and enter
// as parameters.

module AuthController {
  import opened Wrappers

  const AdultAge := 18.0
  const ConsentAge := 13.0

  datatype AccessRestrictions = AccessRestrictions(bettingAllowed: bool, paymentsAllowed: bool)

  /** The consent placeholder written for a child under 13. */
  datatype ConsentPlaceholder = ConsentPlaceholder(granted: bool)

  datatype Account = Account(
    id: string,
    username: string,
    email: string,
    passwordHash: string,
    age: Option<real>,
    isMinor: bool,
    role: Option<string>,
    restrictions: AccessRestrictions,
    coppaConsent: Option<ConsentPlaceholder>,
    lastActive: Option<int>)

  /** What the signed tokens carry. */
  datatype AccessClaims = AccessClaims(userId: string, email: string, role: string)

  datatype Reply =
    | Registered(userId: string, isMinor: bool, isUnder13: bool, access: AccessClaims, refresh: string)
    | LoggedIn(userId: string, access: AccessClaims, refresh: string)
    | Refreshed(access: AccessClaims)
    | Profile(id: string, username: string, email: string, age: Option<real>, role: Option<string>,
              isMinor: bool, restrictions: AccessRestrictions)
    | LoggedOut
    | Refused(status: int, error: string)

  /** `age ? age < limit : false`: an absent or zero age is never under a limit. */
  function Under(age: Option<real>, limit: real): (b: bool)
    ensures b <==> age.Some? && age.value != 0.0 && age.value < limit
  {
    if age.Some? && age.value != 0.0 then age.value < limit else false
  }

  function IsMinor(age: Option<real>): bool {
    Under(age, AdultAge)
  }

  function IsUnder13(age: Option<real>): bool {
    Under(age, ConsentAge)
  }

  /** Under 13 is a minor too. */
  lemma Under13IsMinor(age: Option<real>)
    ensures IsUnder13(age) ==> IsMinor(age)
    ensures age.None? || age == Some(0.0) ==> !IsMinor(age) && !IsUnder13(age)
  {
  }

  function RoleOf(a: Account): string {
    if a.role.Some? && a.role.value != "" then a.role.value else "user"
  }

  function ClaimsOf(a: Account): AccessClaims {
    AccessClaims(a.id, a.email, RoleOf(a))
  }

  /** The account `register` creates. */
  function NewAccount(id: string, username: string, email: string, hash: string, age: Option<real>): (a: Account)
    ensures a.isMinor == IsMinor(age)
    ensures a.restrictions.bettingAllowed <==> !IsMinor(age)
    ensures a.restrictions.paymentsAllowed <==> !IsUnder13(age)
    ensures a.coppaConsent.Some? <==> IsUnder13(age)
    ensures a.coppaConsent.Some? ==> !a.coppaConsent.value.granted
    ensures a.id == id && a.email == email && a.username == username && a.passwordHash == hash && a.age == age
  {
    var minor := IsMinor(age);
    var under13 := IsUnder13(age);
    Account(id, username, email, hash, age, minor, None,
            AccessRestrictions(!minor, !under13),
            if under13 then Some(ConsentPlaceholder(false)) else None,
            None)
  }

  /** A child under 13 is barred from betting and paying; a 13 to 17 year
      old may pay but not bet. */
  lemma ChildRestrictions(id: string, username: string, email: string, hash: string, age: Option<real>)
    ensures IsUnder13(age) ==>
      NewAccount(id, username, email, hash, age).restrictions == AccessRestrictions(false, false)
    ensures IsMinor(age) && !IsUnder13(age) ==>
      NewAccount(id, username, email, hash, age).restrictions == AccessRestrictions(false, true)
    ensures !IsMinor(age) ==>
      NewAccount(id, username, email, hash, age).restrictions == AccessRestrictions(true, true)
  {
    Under13IsMinor(age);
  }

  predicate Present(s: Option<string>) {
    s.Some? && s.value != ""
  }

  /** The user collection, keyed by e-mail, with its id index. */
  class Directory {
    var users: map<string, Account>
    var ids: map<string, string>

    ghost predicate Valid()
      reads this
    {
      (forall e :: e in users ==> users[e].email == e && users[e].id in ids && ids[users[e].id] == e)
      && (forall i :: i in ids ==> ids[i] in users && users[ids[i]].id == i)
    }

    constructor()
      ensures Valid() && users == map[] && ids == map[]
    {
      users, ids := map[], map[];
    }

    /** `register`: `hash` is the bcrypt hash of the password and `newId`
        the id the database assigns; `refreshFor` signs a refresh token. */
    method Register(username: Option<string>, email: Option<string>, password: Option<string>, age: Option<real>,
                    hash: string, newId: string, refreshFor: string -> string)
      returns (r: Reply)
      requires Valid() && newId !in ids
      modifies this
      ensures Valid()
      ensures !Present(username) || !Present(email) || !Present(password) ==>
        r == Refused(400, "Missing required fields") && users == old(users) && ids == old(ids)
      ensures Present(username) && Present(email) && Present(password) && email.value in old(users) ==>
        r == Refused(409, "User already exists") && users == old(users) && ids == old(ids)
      ensures (Present(username) && Present(email) && Present(password) && email.value !in old(users)) ==>
        var a := NewAccount(newId, username.value, email.value, hash, age);
        users == old(users)[email.value := a] && ids == old(ids)[newId := email.value]
        && r == Registered(newId, IsMinor(age), IsUnder13(age), ClaimsOf(a), refreshFor(newId))
    {
      if !Present(username) || !Present(email) || !Present(password) {
        return Refused(400, "Missing required fields");
      }
      if email.value in users {
        return Refused(409, "User already exists");
      }
      var a := NewAccount(newId, username.value, email.value, hash, age);
      users := users[email.value := a];
      ids := ids[newId := email.value];
      r := Registered(newId, IsMinor(age), IsUnder13(age), ClaimsOf(a), refreshFor(newId));
    }

    /** `login`: `matches(password, hash)` is the bcrypt comparison. An
        unknown address and a wrong password get the same answer. */
    method Login(email: Option<string>, password: Option<string>, matches: (string, string) -> bool,
                 refreshFor: string -> string, now: int)
      returns (r: Reply)
      requires Valid()
      modifies this
      ensures Valid() && ids == old(ids)
      ensures !Present(email) || !Present(password) ==> r == Refused(400, "Missing credentials") && users == old(users)
      ensures (Present(email) && Present(password)
        && (email.value !in old(users) || !matches(password.value, old(users)[email.value].passwordHash))) ==>
        r == Refused(401, "Invalid credentials") && users == old(users)
      ensures (Present(email) && Present(password) && email.value in old(users)
        && matches(password.value, old(users)[email.value].passwordHash)) ==>
        var a := old(users)[email.value];
        users == old(users)[email.value := a.(lastActive := Some(now))]
        && r == LoggedIn(a.id, ClaimsOf(a), refreshFor(a.id))
    {
      if !Present(email) || !Present(password) {
        return Refused(400, "Missing credentials");
      }
      if email.value !in users {
        return Refused(401, "Invalid credentials");
      }
      var a := users[email.value];
      if !matches(password.value, a.passwordHash) {
        return Refused(401, "Invalid credentials");
      }
      users := users[email.value := a.(lastActive := Some(now))];
      r := LoggedIn(a.id, ClaimsOf(a), refreshFor(a.id));
    }

    /** The account with a given id, if any. */
    function FindById(id: string): (r: Option<Account>)
      requires Valid()
      reads this
      ensures r.Some? ==> r.value in users.Values && r.value.id == id
      ensures r.None? ==> forall e :: e in users ==> users[e].id != id
    {
      if id in ids then Some(users[ids[id]]) else None
    }

    /** `refreshToken`: `verify` gives the user id in a valid refresh token
        and `None` where the library throws. */
    function RefreshToken(token: Option<string>, verify: string -> Option<string>): (r: Reply)
      requires Valid()
      reads this
      ensures !Present(token) ==> r == Refused(400, "Refresh token required")
      ensures Present(token) && verify(token.value).None? ==> r == Refused(401, "Invalid refresh token")
      ensures r.Refreshed? <==> Present(token) && verify(token.value).Some? && FindById(verify(token.value).value).Some?
      ensures r.Refreshed? ==> r.access.userId == verify(token.value).value
    {
      if !Present(token) then Refused(400, "Refresh token required")
      else if verify(token.value).None? then Refused(401, "Invalid refresh token")
      else
        var found := FindById(verify(token.value).value);
        if found.None? then Refused(401, "User not found") else Refreshed(ClaimsOf(found.value))
    }

    /** `getProfile`: `requester` is the id the authentication hook put on
        the request. The profile leaves the password hash out. */
    function GetProfile(requester: Option<string>): (r: Reply)
      requires Valid()
      reads this
      ensures requester.None? ==> r == Refused(401, "Unauthorized")
      ensures requester.Some? && FindById(requester.value).None? ==> r == Refused(404, "User not found")
      ensures r.Profile? <==> requester.Some? && FindById(requester.value).Some?
      ensures r.Profile? ==> (exists e :: e in users && users[e].id == requester.value
                                && r == Profile(users[e].id, users[e].username, e, users[e].age, users[e].role,
                                                users[e].isMinor, users[e].restrictions))
    {
      if requester.None? then Refused(401, "Unauthorized")
      else
        var found := FindById(requester.value);
        if found.None? then Refused(404, "User not found")
        else
          var a := found.value;
          Profile(a.id, a.username, a.email, a.age, a.role, a.isMinor, a.restrictions)
    }
  }

  /** `logout`: tokens are stateless, so logging out always succeeds and
      changes nothing on the server. */
  function Logout(): (r: Reply)
    ensures r.LoggedOut?
  {
    LoggedOut
  }
}
