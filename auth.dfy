/** Registration and sessions (`auth.py`). The checks of `auth_register` and
    `auth_login` are functions naming the first failing check; the operations
    append a user or replace one user's session token in the store.
    `valid_email` is a parameter (its regular expression is not part of this
    model), and so is every freshly generated token. */
module Auth {
  import opened Base
  import opened Data

  /** What `auth_register` and `auth_login` return on success. */
  datatype Session = Session(uId: int, token: string)

  /** The reasons `auth_register` refuses, in the order they are checked.
      Each is raised as an `InputError`. */
  datatype RegisterRejection =
    | InvalidEmail
    | EmailTaken
    | PasswordTooShort
    | FirstNameLength
    | FirstNameBlank
    | LastNameLength
    | LastNameBlank

  /** `len(name) in range(1, 51)` */
  predicate NameLengthOk(name: string) {
    1 <= |name| <= 50
  }

  /** The first check `auth_register` fails, or `None` when all pass. */
  function RegisterCheck(validEmail: string -> bool, users: seq<User>, email: string, password: string,
                         nameFirst: string, nameLast: string): (r: Option<RegisterRejection>)
    ensures r == Some(InvalidEmail) <==> !validEmail(email)
    ensures r == Some(EmailTaken) <==> validEmail(email) && email in Emails(users)
    ensures r == Some(PasswordTooShort) <==>
      validEmail(email) && email !in Emails(users) && |password| < 6
    ensures r == Some(FirstNameLength) <==>
      validEmail(email) && email !in Emails(users) && |password| >= 6 && !NameLengthOk(nameFirst)
    ensures r == Some(FirstNameBlank) <==>
      validEmail(email) && email !in Emails(users) && |password| >= 6 && NameLengthOk(nameFirst)
      && IsSpace(nameFirst)
    ensures r == Some(LastNameLength) <==>
      validEmail(email) && email !in Emails(users) && |password| >= 6 && NameLengthOk(nameFirst)
      && !IsSpace(nameFirst) && !NameLengthOk(nameLast)
    ensures r.None? <==>
      && validEmail(email) && email !in Emails(users) && |password| >= 6
      && NameLengthOk(nameFirst) && !IsSpace(nameFirst)
      && NameLengthOk(nameLast) && !IsSpace(nameLast)
  {
    if !validEmail(email) then Some(InvalidEmail)
    else if email in Emails(users) then Some(EmailTaken)
    else if |password| < 6 then Some(PasswordTooShort)
    else if !NameLengthOk(nameFirst) then Some(FirstNameLength)
    else if IsSpace(nameFirst) then Some(FirstNameBlank)
    else if !NameLengthOk(nameLast) then Some(LastNameLength)
    else if IsSpace(nameLast) then Some(LastNameBlank)
    else None
  }

  /** An email is in the email list exactly when a user is registered under it. */
  lemma EmailListMatchesLookup(users: seq<User>, email: string)
    ensures email in Emails(users) <==> UserWithEmail(users, email).Some?
  {
  }

  /** A second registration under an email that was just registered is refused. */
  lemma RegisterTwiceRefused(validEmail: string -> bool, users: seq<User>, newUser: User,
                             password: string, nameFirst: string, nameLast: string)
    requires validEmail(newUser.email)
    ensures RegisterCheck(validEmail, users + [newUser], newUser.email, password, nameFirst, nameLast)
              == Some(EmailTaken)
  {
    assert Emails(users + [newUser])[|users|] == newUser.email;
  }

  /** `auth_register`: after all checks pass, appends one user whose id is one
      more than the old number of users. */
  method AuthRegister(w: Workspace, validEmail: string -> bool, email: string, password: string,
                      nameFirst: string, nameLast: string, token: string, permissionId: int)
    returns (r: Result<Session>)
    requires w.Valid()
    modifies w
    ensures w.Valid() && w.channels == old(w.channels)
    ensures RegisterCheck(validEmail, old(w.users), email, password, nameFirst, nameLast).Some? ==>
              r == Err(InputError) && w.users == old(w.users)
    ensures RegisterCheck(validEmail, old(w.users), email, password, nameFirst, nameLast).None? ==>
              && r == Ok(Session(old(|w.users|) + 1, token))
              && w.users == old(w.users) + [User(old(|w.users|) + 1, email, password, nameFirst, nameLast,
                                                 token, permissionId)]
  {
    if !validEmail(email) {
      return Err(InputError);
    } else if email in Emails(w.users) {
      return Err(InputError);
    } else if |password| < 6 {
      return Err(InputError);
    } else if !NameLengthOk(nameFirst) {
      return Err(InputError);
    } else if IsSpace(nameFirst) {
      return Err(InputError);
    } else if !NameLengthOk(nameLast) {
      return Err(InputError);
    } else if IsSpace(nameLast) {
      return Err(InputError);
    }
    ghost var records := w.Records();
    var newUser := User(|w.users| + 1, email, password, nameFirst, nameLast, token, permissionId);
    w.users := w.users + [newUser];
    r := Ok(Session(newUser.uId, newUser.token));
    assert w.Records() == records;
  }

  /** The reasons `auth_login` refuses, in the order they are checked. Each is
      raised as an `InputError`. */
  datatype LoginRejection = InvalidEmailFormat | UnregisteredEmail | IncorrectPassword

  /** The first check `auth_login` fails, or `None` when all pass. */
  function LoginCheck(validEmail: string -> bool, users: seq<User>, email: string, password: string)
    : (r: Option<LoginRejection>)
    ensures r == Some(InvalidEmailFormat) <==> !validEmail(email)
    ensures r == Some(UnregisteredEmail) <==> validEmail(email) && UserWithEmail(users, email).None?
    ensures r == Some(IncorrectPassword) <==>
      validEmail(email) && UserWithEmail(users, email).Some? && UserWithEmail(users, email).value.password != password
    ensures r.None? <==>
      validEmail(email) && UserWithEmail(users, email).Some? && UserWithEmail(users, email).value.password == password
  {
    var user := UserWithEmail(users, email);
    if !validEmail(email) then Some(InvalidEmailFormat)
    else if user.None? then Some(UnregisteredEmail)
    else if user.value.password != password then Some(IncorrectPassword)
    else None
  }

  /** `auth_login`: after all checks pass, the user registered under `email`
      gets the fresh token `newToken`; no other user changes. */
  method AuthLogin(w: Workspace, validEmail: string -> bool, email: string, password: string, newToken: string)
    returns (r: Result<Session>)
    requires w.Valid()
    modifies w
    ensures w.Valid() && w.channels == old(w.channels)
    ensures LoginCheck(validEmail, old(w.users), email, password).Some? ==>
              r == Err(InputError) && w.users == old(w.users)
    ensures LoginCheck(validEmail, old(w.users), email, password).None? ==>
              var k := EmailIndex(old(w.users), email);
              && k < old(|w.users|)
              && r == Ok(Session(old(w.users)[k].uId, newToken))
              && w.users == old(w.users)[k := old(w.users)[k].(token := newToken)]
  {
    var k := EmailIndex(w.users, email);
    if !validEmail(email) {
      return Err(InputError);
    } else if k == |w.users| {
      return Err(InputError);
    } else if w.users[k].password != password {
      return Err(InputError);
    }
    ghost var records := w.Records();
    w.users := w.users[k := w.users[k].(token := newToken)];
    r := Ok(Session(w.users[k].uId, newToken));
    assert w.Records() == records;
  }

  /** After a login with a token nobody held, the token resolves to the user who logged in. */
  lemma LoginTokenResolves(users: seq<User>, k: nat, newToken: string)
    requires k < |users| && forall u :: u in users ==> u.token != newToken
    ensures UserWithToken(users[k := users[k].(token := newToken)], newToken) == Some(users[k].(token := newToken))
  {
    var after := users[k := users[k].(token := newToken)];
    forall j | 0 <= j < k ensures after[j].token != newToken {
      assert users[j] in users;
    }
    assert after[k].token == newToken;
  }

  /** `auth_logout`: the user holding the token gets the empty token. */
  method AuthLogout(w: Workspace, token: string) returns (r: Result<bool>)
    requires w.Valid()
    modifies w
    ensures w.Valid() && w.channels == old(w.channels)
    ensures UserWithToken(old(w.users), token).None? ==> r == Err(AccessError) && w.users == old(w.users)
    ensures UserWithToken(old(w.users), token).Some? ==>
              var k := TokenIndex(old(w.users), token);
              && k < old(|w.users|)
              && r == Ok(true)
              && w.users == old(w.users)[k := old(w.users)[k].(token := "")]
  {
    var k := TokenIndex(w.users, token);
    if k == |w.users| {
      return Err(AccessError);
    }
    ghost var records := w.Records();
    w.users := w.users[k := w.users[k].(token := "")];
    r := Ok(true);
    assert w.Records() == records;
  }

  /** When one user alone holds a non-empty token, logging out ends that session:
      the token no longer resolves to anyone. */
  lemma LogoutEndsSession(users: seq<User>, token: string)
    requires token != "" && UserWithToken(users, token).Some?
    requires forall i, j :: 0 <= i < j < |users| ==> users[i].token != token || users[j].token != token
    ensures var k := TokenIndex(users, token);
      UserWithToken(users[k := users[k].(token := "")], token).None?
  {
    var k := TokenIndex(users, token);
    var after := users[k := users[k].(token := "")];
    forall u | u in after ensures u.token != token {
      var j :| 0 <= j < |after| && after[j] == u;
      if j < k {
        assert users[j].token != token;
      } else if j > k {
        assert users[k].token == token;
      }
    }
  }
}
