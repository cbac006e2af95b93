/**
 * The identity provider the registration and login flows call (Firebase
 * Authentication through the Admin SDK): accounts by uid, and the custom
 * claims attached to each. Only the checks whose errors the services react
 * to are modelled.
 */
module Identity {
  import opened Json
  import opened Store

  const INVALID_EMAIL := Err(StrCode("auth/invalid-email"), "The email address is improperly formatted.")
  const INVALID_PASSWORD := Err(StrCode("auth/invalid-password"), "The password must be a string with at least 6 characters.")
  const EMAIL_EXISTS := Err(StrCode("auth/email-already-exists"), "The email address is already in use by another account.")
  const USER_NOT_FOUND := Err(StrCode("auth/user-not-found"), "There is no user record corresponding to the provided identifier.")

  /** The provider's email syntax check: one '@' with text on both sides. */
  predicate IsEmail(s: string) {
    exists i :: 0 < i < |s| - 1 && s[i] == '@' && '@' !in s[..i] && '@' !in s[i + 1..]
  }

  /** Why `createUser` refuses an email and password, if it does. */
  function CreateRefusal(emails: set<string>, email: Value, password: Value): (r: Option<Err>)
    ensures r.None? <==> email.Str? && IsEmail(email.s) && password.Str? && |password.s| >= 6 && email.s !in emails
    ensures r.Some? ==> r.value.code.StrCode? && |r.value.code.s| >= 5 && r.value.code.s[..5] == "auth/"
  {
    if !(email.Str? && IsEmail(email.s)) then Some(INVALID_EMAIL)
    else if !(password.Str? && |password.s| >= 6) then Some(INVALID_PASSWORD)
    else if email.s in emails then Some(EMAIL_EXISTS)
    else None
  }

  class Auth {
    /** Account email by uid. */
    var accounts: map<string, string>
    /** Custom claims by uid. */
    var claims: map<string, Doc>

    ghost predicate Valid()
      reads this
    {
      claims.Keys <= accounts.Keys
    }

    constructor ()
      ensures Valid() && accounts == map[] && claims == map[]
    {
      accounts := map[];
      claims := map[];
    }

    /** `createUser({ email, password })`; `uid` is the fresh id the
        provider assigns. */
    method CreateUser(uid: string, email: Value, password: Value) returns (r: Result<string>)
      requires Valid() && uid !in accounts
      modifies this
      ensures Valid()
      ensures CreateRefusal(old(accounts).Values, email, password).Some? ==>
        r == Fail(CreateRefusal(old(accounts).Values, email, password).value) && accounts == old(accounts) && claims == old(claims)
      ensures CreateRefusal(old(accounts).Values, email, password).None? ==>
        r == Ok(uid) && accounts == old(accounts)[uid := email.s] && claims == old(claims)
    {
      var refusal := CreateRefusal(accounts.Values, email, password);
      if refusal.Some? {
        r := Fail(refusal.value);
      } else {
        accounts := accounts[uid := email.s];
        r := Ok(uid);
      }
    }

    /** `deleteUser(uid)`. */
    method DeleteUser(uid: string) returns (r: Result<()>)
      requires Valid()
      modifies this
      ensures Valid()
      ensures uid !in old(accounts) ==> r == Fail(USER_NOT_FOUND) && accounts == old(accounts) && claims == old(claims)
      ensures uid in old(accounts) ==> r == Ok(()) && accounts == old(accounts) - {uid} && claims == old(claims) - {uid}
    {
      if uid !in accounts {
        r := Fail(USER_NOT_FOUND);
      } else {
        accounts := accounts - {uid};
        claims := claims - {uid};
        r := Ok(());
      }
    }

    /** `setCustomUserClaims(uid, c)`: replaces the account's claims. */
    method SetCustomUserClaims(uid: string, c: Doc) returns (r: Result<()>)
      requires Valid()
      modifies this
      ensures Valid() && accounts == old(accounts)
      ensures uid !in accounts ==> r == Fail(USER_NOT_FOUND) && claims == old(claims)
      ensures uid in accounts ==> r == Ok(()) && claims == old(claims)[uid := c]
    {
      if uid !in accounts {
        r := Fail(USER_NOT_FOUND);
      } else {
        claims := claims[uid := c];
        r := Ok(());
      }
    }
  }
}
