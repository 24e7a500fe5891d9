/** `LocalUserController` (backend, local profile): a stand-in for Cognito
    that keeps users in an in-memory map from e-mail to user and hands out
    plain-text tokens "local-access-<email>-<millis>". The password encoder
    and the clock are parameters. */
module LocalUsers {
  import opened Wrappers
  import opened JavaLang
  import opened JavaStrings

  /** `LocalUser`. */
  datatype LocalUser = LocalUser(email: string, password: string, firstName: Option<string>,
                                 lastName: Option<string>)

  /** A request cookie. */
  datatype Cookie = Cookie(name: string, value: string)

  /** A reply: its HTTP status and the text of its body (the plain body, or
      the value under "error" or "message"). */
  datatype Reply = Reply(status: int, text: string)

  /** What a login answers: 401, or the two tokens. */
  datatype LoginReply = InvalidCredentials | LoggedIn(accessToken: string, refreshToken: string)

  /** `UserProfileDto` as the local profile endpoint fills it: the role is
      always USER and the account always enabled. */
  datatype Profile = Profile(email: string, firstName: Option<string>, lastName: Option<string>,
                             role: string, enabled: bool)

  const ACCESS_PREFIX := "local-access-"
  const REFRESH_PREFIX := "local-refresh-"
  const TEST_EMAIL := "test@example.com"
  const TEST_PASSWORD_HASH := "$2a$10$92IXUNpkjO0rOQ5byMi.Ye4oKoEa3Ro9llC/.og/at2.uheWG/igi"

  const USER_EXISTS := "User already exists"
  const REGISTERED := "User registered successfully"
  const USER_NOT_FOUND := "User not found"
  const INVALID_CONFIRMATION := "Invalid confirmation code"
  const CONFIRMED := "Registration confirmed successfully. You can now log in."
  const CODE_SENT := "Confirmation code sent successfully"
  const RESET_CODE_SENT := "Password reset code sent successfully"
  const INVALID_RESET := "Invalid reset code"
  const RESET_DONE := "Password reset successfully"

  // ---------------------------------------------------------------------
  // Tokens
  // ---------------------------------------------------------------------

  /** The access token a login issues at time `millis`. */
  function AccessToken(email: string, millis: nat): (t: string)
    ensures StartsWith(t, ACCESS_PREFIX)
  {
    ACCESS_PREFIX + email + "-" + NatToString(millis)
  }

  /** The fields between the '-' separators, empty ones included. */
  function Fields(s: string): (r: seq<string>)
    ensures |r| >= 1
  {
    if s == [] then [[]]
    else
      var rest := Fields(s[1..]);
      if s[0] == '-' then [[]] + rest else [[s[0]] + rest[0]] + rest[1..]
  }

  /** Removes the empty fields at the end. */
  function DropTrailingEmpty(ps: seq<string>): (r: seq<string>)
    ensures |r| <= |ps| && r == ps[..|r|]
    ensures r == [] || r[|r| - 1] != []
  {
    if ps == [] then []
    else if ps[|ps| - 1] == [] then DropTrailingEmpty(ps[..|ps| - 1])
    else ps
  }

  /** `String.split("-")`: the fields without the empty ones at the end,
      except that splitting "" gives [""]. */
  function Split(s: string): seq<string>
  {
    if s == [] then [[]] else DropTrailingEmpty(Fields(s))
  }

  /** The fields joined again with '-'. */
  function Join(ps: seq<string>): string
    requires |ps| >= 1
  {
    if |ps| == 1 then ps[0] else ps[0] + "-" + Join(ps[1..])
  }

  /** The e-mail an access token names: the text after the prefix, split at
      '-', without the last field. A missing token, one without the prefix
      or one with fewer than two fields names no one. */
  function TokenEmail(token: Option<string>): (r: Option<string>)
    ensures token.None? || !StartsWith(token.value, ACCESS_PREFIX) ==> r.None?
    ensures (token.Some? && StartsWith(token.value, ACCESS_PREFIX)
             && |Split(token.value[|ACCESS_PREFIX|..])| < 2) ==> r.None?
  {
    if token.None? || !StartsWith(token.value, ACCESS_PREFIX) then None
    else
      var parts := Split(token.value[|ACCESS_PREFIX|..]);
      if |parts| < 2 then None else Some(Join(parts[..|parts| - 1]))
  }

  /** Joining the fields gives back the text. */
  lemma {:induction false} JoinFields(s: string)
    ensures Join(Fields(s)) == s
  {
    if s != [] {
      var rest := Fields(s[1..]);
      JoinFields(s[1..]);
      if s[0] == '-' {
        assert Fields(s) == [[]] + rest;
        assert ([[]] + rest)[1..] == rest;
      } else {
        var ps := Fields(s);
        assert ps == [[s[0]] + rest[0]] + rest[1..];
        if |rest| > 1 {
          assert ps[1..] == rest[1..];
          assert Join(rest) == rest[0] + "-" + Join(rest[1..]);
        }
      }
    }
  }

  /** A last field without '-' is split off on its own. */
  lemma {:induction false} FieldsAppend(a: string, t: string)
    requires forall i :: 0 <= i < |t| ==> t[i] != '-'
    ensures Fields(a + "-" + t) == Fields(a) + [t]
    decreases |a|
  {
    if a == [] {
      assert a + "-" + t == "-" + t;
      assert ("-" + t)[1..] == t;
      FieldsOfUndashed(t);
    } else {
      assert (a + "-" + t)[1..] == a[1..] + "-" + t;
      FieldsAppend(a[1..], t);
    }
  }

  /** Text without '-' is one field. */
  lemma {:induction false} FieldsOfUndashed(t: string)
    requires forall i :: 0 <= i < |t| ==> t[i] != '-'
    ensures Fields(t) == [t]
  {
    if t != [] {
      FieldsOfUndashed(t[1..]);
      assert [t[0]] + t[1..] == t;
    }
  }

  /** Reading a token back gives the e-mail it was issued for, even when
      the e-mail itself holds '-' characters: only the last field, the
      timestamp, is dropped. */
  lemma TokenRoundTrip(email: string, millis: nat)
    ensures TokenEmail(Some(AccessToken(email, millis))) == Some(email)
  {
    var ts := NatToString(millis);
    var token := AccessToken(email, millis);
    assert token[|ACCESS_PREFIX|..] == email + "-" + ts;
    assert forall i :: 0 <= i < |ts| ==> ts[i] != '-' by {
      assert AllDigits(ts);
    }
    FieldsAppend(email, ts);
    var fs := Fields(email) + [ts];
    assert fs[|fs| - 1] == ts != [];
    assert Split(email + "-" + ts) == fs;
    assert fs[..|fs| - 1] == Fields(email);
    JoinFields(email);
  }

  /** Tokens that name no one. */
  lemma TokenRejections()
    ensures TokenEmail(Some("local-refresh-a@b.com-1")).None?
    ensures TokenEmail(Some("local-access-1700000000000")).None?
  {
    assert !StartsWith("local-refresh-a@b.com-1", ACCESS_PREFIX) by {
      assert "local-refresh-a@b.com-1"[6] != ACCESS_PREFIX[6];
    }
    var rest := "local-access-1700000000000"[|ACCESS_PREFIX|..];
    assert rest == "1700000000000";
    FieldsOfUndashed(rest);
  }

  /** The value of the first cookie named "access_token". */
  function FirstAccessToken(cookies: seq<Cookie>): (r: Option<string>)
    ensures r.Some? <==> exists i :: 0 <= i < |cookies| && cookies[i].name == "access_token"
  {
    if cookies == [] then None
    else if cookies[0].name == "access_token" then Some(cookies[0].value)
    else
      var r := FirstAccessToken(cookies[1..]);
      assert forall i :: 1 <= i < |cookies| ==> cookies[i] == cookies[1..][i - 1];
      r
  }

  /** The cookie loop, stopping at the first match. */
  method FindAccessToken(cookies: Option<seq<Cookie>>) returns (token: Option<string>)
    ensures cookies.None? ==> token.None?
    ensures cookies.Some? ==> token == FirstAccessToken(cookies.value)
  {
    token := None;
    if cookies.None? {
      return;
    }
    var cs := cookies.value;
    var i := 0;
    while i < |cs|
      invariant 0 <= i <= |cs|
      invariant FirstAccessToken(cs) == FirstAccessToken(cs[i..])
    {
      if cs[i].name == "access_token" {
        token := Some(cs[i].value);
        return;
      }
      assert cs[i..][1..] == cs[i + 1..];
      i := i + 1;
    }
  }

  /** Appending one more field to a join. */
  lemma {:induction false} JoinSnoc(ps: seq<string>, x: string)
    requires |ps| >= 1
    ensures Join(ps + [x]) == Join(ps) + "-" + x
    decreases |ps|
  {
    if |ps| > 1 {
      assert (ps + [x])[1..] == ps[1..] + [x];
      JoinSnoc(ps[1..], x);
    }
  }

  /** The e-mail extraction in the profile endpoints: the string builder
      loop over all fields but the last. */
  method ExtractEmail(token: Option<string>) returns (email: Option<string>)
    ensures email == TokenEmail(token)
  {
    if token.None? || !StartsWith(token.value, ACCESS_PREFIX) {
      return None;
    }
    var parts := Split(token.value[|ACCESS_PREFIX|..]);
    if |parts| < 2 {
      return None;
    }
    var builder := "";
    var i := 0;
    while i < |parts| - 1
      invariant 0 <= i <= |parts| - 1
      invariant i == 0 ==> builder == ""
      invariant i > 0 ==> builder == Join(parts[..i])
    {
      if i > 0 {
        JoinSnoc(parts[..i], parts[i]);
        assert parts[..i] + [parts[i]] == parts[..i + 1];
        builder := builder + "-";
      }
      builder := builder + parts[i];
      i := i + 1;
    }
    email := Some(builder);
  }

  // ---------------------------------------------------------------------
  // The controller
  // ---------------------------------------------------------------------

  /** The controller with its user map. */
  class LocalUserController {
    var users: map<string, LocalUser>

    /** Each user is stored under its own e-mail. */
    predicate Valid()
      reads this
    {
      forall e :: e in users ==> users[e].email == e
    }

    /** The map starts with the test user. */
    constructor ()
      ensures users == map[TEST_EMAIL := LocalUser(TEST_EMAIL, TEST_PASSWORD_HASH, Some("Test"), Some("User"))]
      ensures Valid()
    {
      users := map[TEST_EMAIL := LocalUser(TEST_EMAIL, TEST_PASSWORD_HASH, Some("Test"), Some("User"))];
    }

    /** `registerUser`: an existing e-mail gets 400; otherwise exactly one
        user is added, with the encoded password. */
    method Register(email: string, password: string, firstName: Option<string>, lastName: Option<string>,
                    encode: string -> string) returns (r: Reply)
      requires Valid()
      modifies this
      ensures Valid()
      ensures email in old(users) ==> r == Reply(400, USER_EXISTS) && users == old(users)
      ensures email !in old(users) ==>
        r == Reply(200, REGISTERED)
        && users == old(users)[email := LocalUser(email, encode(password), firstName, lastName)]
    {
      if email in users {
        return Reply(400, USER_EXISTS);
      }
      users := users[email := LocalUser(email, encode(password), firstName, lastName)];
      r := Reply(200, REGISTERED);
    }

    /** `loginUser`: an unknown e-mail or a password the encoder does not
        match gets 401; otherwise both tokens name the user and a time. The
        clock is read once per token, so `accessMillis` and `refreshMillis`
        are the two readings and may differ. */
    function Login(email: string, password: string, matches: (string, string) -> bool,
                   accessMillis: nat, refreshMillis: nat): (r: LoginReply)
      reads this
      ensures r.InvalidCredentials? <==> email !in users || !matches(password, users[email].password)
      ensures r.LoggedIn? ==>
        r.accessToken == AccessToken(users[email].email, accessMillis)
        && r.refreshToken == REFRESH_PREFIX + users[email].email + "-" + NatToString(refreshMillis)
    {
      if email !in users || !matches(password, users[email].password) then InvalidCredentials
      else
        var u := users[email];
        LoggedIn(AccessToken(u.email, accessMillis), REFRESH_PREFIX + u.email + "-" + NatToString(refreshMillis))
    }

    /** `getProfile`: the user the cookie's token names, or 401 (`None`). */
    function ProfileFor(cookies: Option<seq<Cookie>>): (r: Option<Profile>)
      reads this
      ensures r.Some? <==>
        cookies.Some? && var e := TokenEmail(FirstAccessToken(cookies.value)); e.Some? && e.value in users
      ensures r.Some? ==>
        var u := users[TokenEmail(FirstAccessToken(cookies.value)).value];
        r.value == Profile(u.email, u.firstName, u.lastName, "USER", true)
    {
      if cookies.None? then None
      else
        var e := TokenEmail(FirstAccessToken(cookies.value));
        if e.None? || e.value !in users then None
        else
          var u := users[e.value];
          Some(Profile(u.email, u.firstName, u.lastName, "USER", true))
    }

    /** A user who just logged in is found again by the access token the
        login returned. */
    lemma LoginThenProfile(email: string, password: string, matches: (string, string) -> bool,
                           millis: nat, refreshMillis: nat)
      requires Valid()
      requires Login(email, password, matches, millis, refreshMillis).LoggedIn?
      ensures ProfileFor(Some([Cookie("access_token", Login(email, password, matches, millis, refreshMillis).accessToken)]))
              == Some(Profile(email, users[email].firstName, users[email].lastName, "USER", true))
    {
      TokenRoundTrip(email, millis);
    }

    /** `confirmRegistration`: an unknown user, then a code whose length is
        not 6, get 400; any six characters confirm. Nothing changes. */
    function Confirm(email: string, code: string): (r: Reply)
      reads this
      ensures r.status == 200 <==> email in users && |code| == 6
      ensures email !in users ==> r == Reply(400, USER_NOT_FOUND)
      ensures email in users && |code| != 6 ==> r == Reply(400, INVALID_CONFIRMATION)
    {
      if email !in users then Reply(400, USER_NOT_FOUND)
      else if |code| != 6 then Reply(400, INVALID_CONFIRMATION)
      else Reply(200, CONFIRMED)
    }

    /** `resendConfirmationCode`: 400 for an unknown user. */
    function ResendCode(email: string): (r: Reply)
      reads this
      ensures r.status == 200 <==> email in users
    {
      if email !in users then Reply(400, USER_NOT_FOUND) else Reply(200, CODE_SENT)
    }

    /** `resetPassword`: 400 for an unknown user. */
    function ResetPassword(email: string): (r: Reply)
      reads this
      ensures r.status == 200 <==> email in users
    {
      if email !in users then Reply(400, USER_NOT_FOUND) else Reply(200, RESET_CODE_SENT)
    }

    /** `confirmPasswordReset`: the same two checks as confirmation; then
        only the password is replaced, by the encoded new one. */
    method ConfirmReset(email: string, code: string, newPassword: string, encode: string -> string)
      returns (r: Reply)
      requires Valid()
      modifies this
      ensures Valid()
      ensures email !in old(users) ==> r == Reply(400, USER_NOT_FOUND) && users == old(users)
      ensures email in old(users) && |code| != 6 ==> r == Reply(400, INVALID_RESET) && users == old(users)
      ensures email in old(users) && |code| == 6 ==>
        r == Reply(200, RESET_DONE)
        && users == old(users)[email := old(users)[email].(password := encode(newPassword))]
    {
      if email !in users {
        return Reply(400, USER_NOT_FOUND);
      }
      if |code| != 6 {
        return Reply(400, INVALID_RESET);
      }
      var u := users[email];
      users := users[email := LocalUser(u.email, encode(newPassword), u.firstName, u.lastName)];
      r := Reply(200, RESET_DONE);
    }

    /** `updateProfile`: the user the cookie's token names gets the new
        names and keeps the password; otherwise 401 and nothing changes. */
    method UpdateProfile(cookies: Option<seq<Cookie>>, firstName: Option<string>, lastName: Option<string>)
      returns (status: int)
      requires Valid()
      modifies this
      ensures Valid()
      ensures var e := if cookies.Some? then TokenEmail(FirstAccessToken(cookies.value)) else None;
        (e.None? || e.value !in old(users) ==> status == 401 && users == old(users))
        && (e.Some? && e.value in old(users) ==>
              status == 200
              && users == old(users)[e.value := old(users)[e.value].(firstName := firstName, lastName := lastName)])
    {
      var token := FindAccessToken(cookies);
      var email := ExtractEmail(token);
      if email.None? || email.value !in users {
        return 401;
      }
      var u := users[email.value];
      users := users[email.value := LocalUser(email.value, u.password, firstName, lastName)];
      status := 200;
    }
  }
}
