/** The `/auth` routes: registration, login, and the forgot/reset password
    pair. bcrypt is passed in as `hash` and `compare`, the random reset token
    and new ids as parameters, and `Date.now()` as `now`. */
module AuthRoutes {
  import opened Types

  /** Reset tokens live for one hour, in milliseconds. */
  const ResetTtl: int := 3600000

  /** The record registration saves: role forced to "user", not blocked, no
      followers, no reset token. Schema defaults are taken as an empty bio
      and no profile image. */
  function NewUser(username: string, email: string, passwordHash: string): (u: User)
    ensures u.role == UserRole && !u.isBlocked
    ensures u.email == email && u.password == passwordHash
    ensures u.followers == [] && u.resetPasswordToken.None? && u.resetPasswordExpires.None?
  {
    User(username, email, passwordHash, UserRole, false, "", None, [], None, None)
  }

  /** POST /auth/register: an existing email gives 400 before the role is
      looked at; a requested role "admin" gives 403; otherwise a new user is
      stored under the fresh id `newId`, whatever role the body asked for. */
  method Register(db: Store, username: string, email: string, password: string,
                  role: Option<string>, newId: Id, hash: string -> string)
    returns (status: int)
    requires newId !in db.users
    modifies db
    ensures db.blogs == old(db.blogs)
    ensures
      if HasEmail(old(db.users), email) then status == BadRequest && db.users == old(db.users)
      else if role == Some(AdminRole) then status == Forbidden && db.users == old(db.users)
      else
        && status == Created
        && db.users == old(db.users)[newId := NewUser(username, email, hash(password))]
        && db.users[newId].role == UserRole && !db.users[newId].isBlocked
    ensures EmailsUnique(old(db.users)) ==> EmailsUnique(db.users)
  {
    if HasEmail(db.users, email) {
      return BadRequest;
    }
    if role.Some? && role.value == AdminRole {
      return Forbidden;
    }
    db.users := db.users[newId := NewUser(username, email, hash(password))];
    status := Created;
  }

  datatype LoginReply = LoginReply(status: int, token: Option<TokenPayload>)

  /** The decision taken on the user found by email: a blocked account is
      refused before the password is checked, a wrong password gives 400,
      otherwise the token payload is exactly the user's id and role. */
  function LoginDecision(id: Id, u: User, passwordOk: bool): (r: LoginReply)
    ensures u.isBlocked ==> r == LoginReply(Forbidden, None)
    ensures !u.isBlocked && !passwordOk ==> r == LoginReply(BadRequest, None)
    ensures r.status == Ok <==> !u.isBlocked && passwordOk
    ensures r.token.Some? <==> r.status == Ok
    ensures r.token.Some? ==> r.token.value.id == id && r.token.value.role == u.role
  {
    if u.isBlocked then LoginReply(Forbidden, None)
    else if !passwordOk then LoginReply(BadRequest, None)
    else LoginReply(Ok, Some(TokenPayload(id, u.role)))
  }

  /** POST /auth/login: an unknown email gives 400; otherwise the decision
      on a user with that email (the only one, under the unique index). */
  method Login(db: Store, email: string, password: string, compare: (string, string) -> bool)
    returns (status: int, token: Option<TokenPayload>)
    ensures !HasEmail(db.users, email) ==> status == BadRequest && token == None
    ensures HasEmail(db.users, email) ==>
              exists id :: id in db.users && db.users[id].email == email
                && LoginReply(status, token) == LoginDecision(id, db.users[id], compare(password, db.users[id].password))
  {
    if !HasEmail(db.users, email) {
      return BadRequest, None;
    }
    var id :| id in db.users && db.users[id].email == email;
    var reply := LoginDecision(id, db.users[id], compare(password, db.users[id].password));
    status, token := reply.status, reply.token;
  }

  /** A reset token is usable while it is stored and its expiry is strictly
      after `now` (`resetPasswordExpires: { $gt: now }`). */
  predicate TokenValid(u: User, token: string, now: int)
  {
    u.resetPasswordToken == Some(token) && u.resetPasswordExpires.Some? && u.resetPasswordExpires.value > now
  }

  /** The record after forgot-password stored `token` at time `now`: the
      token is then usable exactly before `now + ResetTtl`. */
  function WithResetToken(u: User, token: string, now: int): (r: User)
    ensures forall t :: TokenValid(r, token, t) <==> t < now + ResetTtl
    ensures r.(resetPasswordToken := u.resetPasswordToken, resetPasswordExpires := u.resetPasswordExpires) == u
  {
    u.(resetPasswordToken := Some(token), resetPasswordExpires := Some(now + ResetTtl))
  }

  /** The record after a successful reset: the new hash, and token and
      expiry cleared, so no token is usable on it any more. */
  function ClearedReset(u: User, passwordHash: string): (r: User)
    ensures r.password == passwordHash
    ensures forall token, t :: !TokenValid(r, token, t)
    ensures r.(password := u.password, resetPasswordToken := u.resetPasswordToken,
               resetPasswordExpires := u.resetPasswordExpires) == u
  {
    u.(password := passwordHash, resetPasswordToken := None, resetPasswordExpires := None)
  }

  /** POST /auth/forgot-password: an unknown email gives 400; otherwise a
      user with that email gets the token `token` with a one-hour expiry, and
      the record is saved before the mail goes out. `mailSent` is whether
      sending the reset mail succeeded: when it fails the reply is 500, but
      the token stays stored and usable. */
  method ForgotPassword(db: Store, email: string, token: string, now: int, mailSent: bool)
    returns (status: int)
    modifies db
    ensures db.blogs == old(db.blogs)
    ensures !HasEmail(old(db.users), email) ==> status == BadRequest && db.users == old(db.users)
    ensures HasEmail(old(db.users), email) ==>
              && status == (if mailSent then Ok else ServerError)
              && exists id :: id in old(db.users) && old(db.users)[id].email == email
                   && db.users == old(db.users)[id := WithResetToken(old(db.users)[id], token, now)]
                   && TokenValid(db.users[id], token, now)
  {
    if !HasEmail(db.users, email) {
      return BadRequest;
    }
    var id :| id in db.users && db.users[id].email == email;
    db.users := db.users[id := WithResetToken(db.users[id], token, now)];
    if !mailSent {
      return ServerError;
    }
    status := Ok;
  }

  /** POST /auth/reset-password/:token: 400 unless some user holds `token`
      unexpired at `now`; that user gets the new password hash and loses the
      token, so a second reset with the same token cannot use that record. */
  method ResetPassword(db: Store, token: string, password: string, now: int, hash: string -> string)
    returns (status: int)
    modifies db
    ensures db.blogs == old(db.blogs)
    ensures (forall id :: id in old(db.users) ==> !TokenValid(old(db.users)[id], token, now)) ==>
              status == BadRequest && db.users == old(db.users)
    ensures (exists id :: id in old(db.users) && TokenValid(old(db.users)[id], token, now)) ==>
              && status == Ok
              && exists id :: id in old(db.users) && TokenValid(old(db.users)[id], token, now)
                   && db.users == old(db.users)[id := ClearedReset(old(db.users)[id], hash(password))]
                   && forall t :: !TokenValid(db.users[id], token, t)
  {
    if forall id :: id in db.users ==> !TokenValid(db.users[id], token, now) {
      return BadRequest;
    }
    var id :| id in db.users && TokenValid(db.users[id], token, now);
    db.users := db.users[id := ClearedReset(db.users[id], hash(password))];
    status := Ok;
  }
}
