/** `UserService` (backend): the local user table next to the Cognito user
    pool. Cognito's answers are parameters; the table is a map from user id
    to user, with the unique e-mail index `findByEmail` uses kept beside it.
    The clock is a parameter as well. */
module Users {
  import opened Wrappers
  import opened JavaLang
  import opened JavaStrings
  import opened Failures

  /** `Role`: the two constants the code uses. */
  datatype Role = USER | ADMIN

  /** `Address`, the embedded postal address. */
  datatype Address = Address(street: Option<string>, city: Option<string>, state: Option<string>,
                             country: Option<string>, zipCode: Option<string>)

  /** The `User` entity's fields the service reads and writes. The role
      column starts as USER (the field's initializer) and is never set to
      null by the service; `updatedAt` is the instant of the last write. */
  datatype User = User(id: int, email: string, firstName: Option<string>, lastName: Option<string>,
                       enabled: bool, cognitoId: Option<string>, role: Option<Role>,
                       address: Option<Address>, updatedAt: int)

  /** `UserRegistrationDto`. */
  datatype Registration = Registration(email: string, password: string, firstName: Option<string>,
                                       lastName: Option<string>)

  /** What Cognito answers a sign-up with: the new account's id, or the
      message of the exception it threw. */
  datatype SignUp = SignedUp(cognitoId: string) | Rejected(message: string)

  const CONFIRMED := "Registration confirmed successfully. You can now log in."

  /** Stands for the message with which the user table refuses a second row
      for an e-mail it already holds. */
  const DUPLICATE_EMAIL := "duplicate e-mail"

  function RoleName(r: Role): string
  {
    match r
    case USER => "USER"
    case ADMIN => "ADMIN"
  }

  /** `Role.valueOf(roleString.toUpperCase())`: a null string fails on
      `toUpperCase`, a name that is no constant fails in `valueOf`. */
  function ParseRole(roleString: Option<string>): (r: Result<Role, Failure>)
    ensures roleString.None? ==> r == Err(NullPointer)
    ensures r.Ok? ==> roleString.Some? && ToUpper(roleString.value) == RoleName(r.value)
    ensures roleString.Some? && r.Err? ==>
      r.error == Runtime("No enum constant com.ecommerce.user.entity.Role." + ToUpper(roleString.value))
  {
    if roleString.None? then Err(NullPointer)
    else
      var upper := ToUpper(roleString.value);
      if upper == "USER" then Ok(USER)
      else if upper == "ADMIN" then Ok(ADMIN)
      else Err(Runtime("No enum constant com.ecommerce.user.entity.Role." + upper))
  }

  /** The role string is read without regard to case: it names a role
      exactly when it equals that role's name ignoring case. */
  lemma ParseRoleIgnoresCase(s: string, role: Role)
    ensures ParseRole(Some(s)) == Ok(role) <==> EqualsIgnoreCase(s, RoleName(role))
  {
    ToUpperOfUpper(RoleName(role));
    ToUpperOfUpper(RoleName(if role == USER then ADMIN else USER));
  }

  /** The user a registration creates: disabled until confirmed, carrying
      the Cognito id, with the registration's e-mail and names, the default
      role USER, no address, and the creation instant as its last write
      (`@PrePersist`). */
  function NewUser(id: int, dto: Registration, cognitoId: string, now: int): (u: User)
    ensures !u.enabled && u.cognitoId == Some(cognitoId) && u.id == id
    ensures u.email == dto.email && u.firstName == dto.firstName && u.lastName == dto.lastName
    ensures u.role == Some(USER) && u.address.None? && u.updatedAt == now
  {
    User(id, dto.email, dto.firstName, dto.lastName, false, Some(cognitoId), Some(USER), None, now)
  }

  /** `save` of an edited user: a row that differs from the stored one is
      written, and `@PreUpdate` stamps the update instant; an unchanged row
      is not written at all. */
  function Saved(stored: User, edited: User, now: int): (u: User)
  {
    if edited == stored then stored else edited.(updatedAt := now)
  }

  /** `toggleUserStatus` on one user: `enabled` changes to its negation and
      the update instant is stamped; nothing else changes. */
  function Toggled(u: User, now: int): (t: User)
    ensures t.enabled == !u.enabled && t.updatedAt == now
    ensures t.(enabled := u.enabled, updatedAt := u.updatedAt) == u
  {
    Saved(u, u.(enabled := !u.enabled), now)
  }

  /** Toggling twice restores the user, apart from the update instant. */
  lemma ToggleTwice(u: User, now1: int, now2: int)
    ensures Toggled(Toggled(u, now1), now2) == u.(updatedAt := now2)
  {
  }

  /** `updateProfile` on one user: the names are replaced (null included);
      the address only when one is supplied; the update instant is stamped
      when anything changed. */
  function ProfileUpdated(u: User, firstName: Option<string>, lastName: Option<string>, address: Option<Address>,
                          now: int): (r: User)
    ensures r.firstName == firstName && r.lastName == lastName
    ensures address.Some? ==> r.address == address
    ensures address.None? ==> r.address == u.address
    ensures r.updatedAt == (if r.(updatedAt := u.updatedAt) == u then u.updatedAt else now)
    ensures r == u.(firstName := r.firstName, lastName := r.lastName, address := r.address, updatedAt := r.updatedAt)
  {
    Saved(u, u.(firstName := firstName, lastName := lastName, address := if address.Some? then address else u.address),
          now)
  }

  /** Updating a profile with the values it already holds writes nothing. */
  lemma ProfileUpdateIdempotent(u: User, firstName: Option<string>, lastName: Option<string>, address: Option<Address>,
                                now1: int, now2: int)
    ensures var once := ProfileUpdated(u, firstName, lastName, address, now1);
      ProfileUpdated(once, firstName, lastName, address, now2) == once
  {
  }

  /** `updateUserProfile` on one user: the names and the update time, and
      nothing else. */
  function UserProfileUpdated(u: User, firstName: Option<string>, lastName: Option<string>, now: int): (r: User)
    ensures r.firstName == firstName && r.lastName == lastName && r.updatedAt == now
    ensures r == u.(firstName := r.firstName, lastName := r.lastName, updatedAt := now)
  {
    u.(firstName := firstName, lastName := lastName, updatedAt := now)
  }

  /** The user table and its e-mail index. */
  class UserService {
    var users: map<int, User>
    var byEmail: map<string, int>
    var nextId: int

    /** The index holds exactly the stored users under their e-mails, and
        every id is below the next one. */
    predicate Valid()
      reads this
    {
      (forall e :: e in byEmail ==> byEmail[e] in users && users[byEmail[e]].email == e)
      && (forall i :: i in users ==> users[i].email in byEmail && byEmail[users[i].email] == i)
      && (forall i :: i in users ==> i < nextId)
    }

    constructor ()
      ensures users == map[] && byEmail == map[] && nextId == 1
      ensures Valid()
    {
      users := map[];
      byEmail := map[];
      nextId := 1;
    }

    /** `getUserByEmail`. */
    function UserByEmail(email: string): (r: Result<User, Failure>)
      requires Valid()
      reads this
      ensures r.Ok? <==> exists i :: i in users && users[i].email == email
      ensures r.Ok? ==> r.value in users.Values && r.value.email == email
      ensures r.Err? ==> r.error == ResourceNotFound("User not found with email: " + email)
    {
      if email in byEmail then
        var i := byEmail[email];
        assert i in users && users[i].email == email;
        Ok(users[i])
      else Err(ResourceNotFound("User not found with email: " + email))
    }

    /** `getUserById`. */
    function UserById(id: int): (r: Result<User, Failure>)
      reads this
      ensures r.Ok? <==> id in users
      ensures r.Ok? ==> r.value == users[id]
      ensures r.Err? ==> r.error == ResourceNotFound("User not found with id: " + IntToString(id))
    {
      if id in users then Ok(users[id]) else Err(ResourceNotFound("User not found with id: " + IntToString(id)))
    }

    /** `registerUser`: Cognito first; a rejection, or an e-mail the table
        already holds, stores nothing and fails as "Failed to register user:
        " with the cause's message. Otherwise one disabled user is added. */
    method RegisterUser(dto: Registration, signUp: SignUp, now: int) returns (r: Result<(), Failure>)
      requires Valid()
      modifies this
      ensures Valid()
      ensures signUp.Rejected? ==>
        r == Err(Runtime("Failed to register user: " + signUp.message)) && unchanged(this)
      ensures signUp.SignedUp? && dto.email in old(byEmail) ==>
        r == Err(Runtime("Failed to register user: " + DUPLICATE_EMAIL)) && unchanged(this)
      ensures signUp.SignedUp? && dto.email !in old(byEmail) ==>
        r == Ok(()) && old(nextId) !in old(users)
        && users == old(users)[old(nextId) := NewUser(old(nextId), dto, signUp.cognitoId, now)]
        && byEmail == old(byEmail)[dto.email := old(nextId)]
    {
      if signUp.Rejected? {
        return Err(Runtime("Failed to register user: " + signUp.message));
      }
      if dto.email in byEmail {
        return Err(Runtime("Failed to register user: " + DUPLICATE_EMAIL));
      }
      users := users[nextId := NewUser(nextId, dto, signUp.cognitoId, now)];
      byEmail := byEmail[dto.email := nextId];
      nextId := nextId + 1;
      r := Ok(());
    }

    /** `confirmRegistration`: an unknown e-mail fails before Cognito is
        asked; a Cognito failure (the message `cognitoError`) changes
        nothing; otherwise the user is enabled. Every failure is rethrown as
        "Failed to confirm user: " with the cause's message. */
    method ConfirmRegistration(email: string, cognitoError: Option<string>, now: int) returns (r: Result<string, Failure>)
      requires Valid()
      modifies this`users
      ensures Valid()
      ensures email !in byEmail ==>
        r == Err(Runtime("Failed to confirm user: User not found with email: " + email)) && users == old(users)
      ensures email in byEmail && cognitoError.Some? ==>
        r == Err(Runtime("Failed to confirm user: " + cognitoError.value)) && users == old(users)
      ensures email in byEmail && cognitoError.None? ==>
        r == Ok(CONFIRMED)
        && users == old(users)[byEmail[email] := Saved(old(users)[byEmail[email]],
                                                       old(users)[byEmail[email]].(enabled := true), now)]
    {
      if email !in byEmail {
        return Err(Runtime("Failed to confirm user: User not found with email: " + email));
      }
      if cognitoError.Some? {
        return Err(Runtime("Failed to confirm user: " + cognitoError.value));
      }
      var id := byEmail[email];
      users := users[id := Saved(users[id], users[id].(enabled := true), now)];
      r := Ok(CONFIRMED);
    }

    /** `updateProfile`, for the e-mail the token resolves to: an unknown
        user fails as "User not found". */
    method UpdateProfile(email: string, firstName: Option<string>, lastName: Option<string>,
                         address: Option<Address>, now: int) returns (r: Result<(), Failure>)
      requires Valid()
      modifies this`users
      ensures Valid()
      ensures email !in byEmail ==> r == Err(UserAuthentication("User not found")) && users == old(users)
      ensures email in byEmail ==>
        r == Ok(()) && users == old(users)[byEmail[email] :=
                                ProfileUpdated(old(users)[byEmail[email]], firstName, lastName, address, now)]
    {
      if email !in byEmail {
        return Err(UserAuthentication("User not found"));
      }
      var id := byEmail[email];
      users := users[id := ProfileUpdated(users[id], firstName, lastName, address, now)];
      r := Ok(());
    }

    /** `updateUserProfile`: an unknown e-mail fails with
        `UserNotFoundException`. */
    method UpdateUserProfile(email: string, firstName: Option<string>, lastName: Option<string>, now: int)
      returns (r: Result<(), Failure>)
      requires Valid()
      modifies this`users
      ensures Valid()
      ensures email !in byEmail ==>
        r == Err(NoSuchUser("User not found with email: " + email)) && users == old(users)
      ensures email in byEmail ==>
        r == Ok(()) && users == old(users)[byEmail[email] :=
                                UserProfileUpdated(old(users)[byEmail[email]], firstName, lastName, now)]
    {
      if email !in byEmail {
        return Err(NoSuchUser("User not found with email: " + email));
      }
      var id := byEmail[email];
      users := users[id := UserProfileUpdated(users[id], firstName, lastName, now)];
      r := Ok(());
    }

    /** `updateUserRole`: the user is looked up first, then the role
        parsed; either failure changes nothing. */
    method UpdateUserRole(id: int, roleString: Option<string>, now: int) returns (r: Result<(), Failure>)
      requires Valid()
      modifies this`users
      ensures Valid()
      ensures id !in users ==> r == Err(UserById(id).error) && users == old(users)
      ensures id in users && ParseRole(roleString).Err? ==>
        r == Err(ParseRole(roleString).error) && users == old(users)
      ensures id in users && ParseRole(roleString).Ok? ==>
        r == Ok(())
        && users == old(users)[id := Saved(old(users)[id], old(users)[id].(role := Some(ParseRole(roleString).value)), now)]
    {
      if id !in users {
        return Err(UserById(id).error);
      }
      var role := ParseRole(roleString);
      if role.Err? {
        return Err(role.error);
      }
      users := users[id := Saved(users[id], users[id].(role := Some(role.value)), now)];
      r := Ok(());
    }

    /** `toggleUserStatus`. */
    method ToggleUserStatus(id: int, now: int) returns (r: Result<(), Failure>)
      requires Valid()
      modifies this`users
      ensures Valid()
      ensures id !in users ==> r == Err(UserById(id).error) && users == old(users)
      ensures id in users ==> r == Ok(()) && users == old(users)[id := Toggled(old(users)[id], now)]
    {
      if id !in users {
        return Err(UserById(id).error);
      }
      users := users[id := Toggled(users[id], now)];
      r := Ok(());
    }
  }
}
