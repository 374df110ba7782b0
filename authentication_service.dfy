/** Registration, e-mail confirmation, password reset, re-sending the
    verification token and sign-in. */
module Authentication {
  import opened Common
  import opened Models
  import opened ConfirmationTokens
  import opened Store
  import opened Users

  const DUPLICATE_EMAIL: Error := ResourceAlreadyExists("User with email already present")
  const TOKEN_NOT_FOUND: Error := ResourceNotFound("token not found")
  const ALREADY_CONFIRMED: Error := ResourceAlreadyExists("email already confirmed")
  const TOKEN_EXPIRED: Error := IllegalState("token expired")
  const INCORRECT_PASSWORD: Error := IllegalState("Incorrect Password")
  const RESET_TOKEN_NOT_FOUND: Error := ResourceNotFound("Token not found")
  const RESET_TOKEN_EXPIRED: Error := ResourceAlreadyExists("Password Reset Token is expired")
  const RESEND_USER_NOT_FOUND: Error := UsernameNotFound("User not Found")
  const SIGNIN_USER_NOT_FOUND: Error := UsernameNotFound("User not found")

  const EMAIL_CONFIRMED: string := "Email Confirmed"
  const PASSWORD_RESET: string := "Password Reset Successfully"
  const VERIFICATION_RESENT: string := "Verification token resent"
  const SIGNED_IN: string := "User has signed in successfully"

  /** `String.format("User with name %s %s created successfully", first, last)`. */
  function SignupMessage(req: RegistrationRequest): string
  {
    "User with name " + req.firstName + " " + req.lastName + " created successfully"
  }

  /** The account the sign-up builder produces: enabled at once; the builder sets
      neither `locked` nor `isDeleted`, which stay null. */
  function NewAccount(req: RegistrationRequest, encode: string -> string): User
  {
    User(req.email, req.firstName, req.lastName, encode(req.password), Some(true), None, None)
  }

  /** `signup`; `value` is the random UUID of the new token. */
  function SignupStep(db: Db, encode: string -> string, req: RegistrationRequest, value: string, now: Time)
    : (r: Result<(Db, RegistrationResponse)>)
    requires WellFormed(db) && value !in db.tokens
    ensures r.Success? ==> WellFormed(r.value.0)
  {
    if EmailTaken(db.users, req.email) then Failure(DUPLICATE_EMAIL)
    else
      var withUser := AddUser(db, NewAccount(req, encode));
      Success((AddToken(withUser, value, now, db.userSequence), RegistrationResponse(SignupMessage(req), value)))
  }

  /** `confirmToken`. */
  function ConfirmStep(db: Db, value: string, now: Time): (r: Result<(Db, string)>)
    requires WellFormed(db)
    ensures r.Success? ==> WellFormed(r.value.0)
  {
    if value !in db.tokens then Failure(TOKEN_NOT_FOUND)
    else
      var row := db.tokens[value];
      if row.confirmedAt.Some? then Failure(ALREADY_CONFIRMED)
      else if IsBefore(row.expiresAt, now) then Failure(TOKEN_EXPIRED)
      else Success((ConsumeToken(db, value, now), EMAIL_CONFIRMED))
  }

  /** `forgotPassword`. */
  function ForgotPasswordStep(db: Db, encode: string -> string, req: PasswordResetRequest, now: Time)
    : (r: Result<(Db, GeneralResponse)>)
    requires WellFormed(db)
    ensures r.Success? ==> WellFormed(r.value.0)
  {
    if req.newPassword != req.confirmPassword then Failure(INCORRECT_PASSWORD)
    else if req.token !in db.tokens then Failure(RESET_TOKEN_NOT_FOUND)
    else
      var row := db.tokens[req.token];
      if row.confirmedAt.Some? || IsBefore(row.expiresAt, now) then Failure(RESET_TOKEN_EXPIRED)
      else
        var user := db.users[row.user].(password := encode(req.newPassword));
        Success((db.(users := db.users[row.user := user]), GeneralResponse(PASSWORD_RESET)))
  }

  /** `resendVerification`; `value` is the random UUID of the new token. */
  function ResendStep(db: Db, email: string, value: string, now: Time): (r: Result<(Db, GeneralResponse)>)
    requires WellFormed(db) && value !in db.tokens
    ensures r.Success? ==> WellFormed(r.value.0)
  {
    match EmailOwner(db.users, email)
    case None => Failure(RESEND_USER_NOT_FOUND)
    case Some(owner) => Success((AddToken(db, value, now, owner), GeneralResponse(VERIFICATION_RESENT)))
  }

  /** A sign-up with an e-mail some account already has throws "User with email
      already present" (so nothing is saved or sent); any other e-mail succeeds. */
  lemma SignupRejectsDuplicate(db: Db, encode: string -> string, req: RegistrationRequest, value: string, now: Time)
    requires WellFormed(db) && value !in db.tokens
    ensures SignupStep(db, encode, req, value, now).Failure? <==> EmailTaken(db.users, req.email)
    ensures EmailTaken(db.users, req.email) ==> SignupStep(db, encode, req, value, now) == Failure(DUPLICATE_EMAIL)
  {
  }

  /** A successful sign-up adds exactly one account, under an unused id, holding the
      given e-mail and names, the encoded password, enabled; and exactly one token,
      bound to that account, unconsumed, issued now and expiring 15 minutes later,
      whose value the response returns. Nothing else changes. */
  lemma SignupCreatesAccountAndToken(db: Db, encode: string -> string, req: RegistrationRequest, value: string, now: Time)
    requires WellFormed(db) && value !in db.tokens && !EmailTaken(db.users, req.email)
    ensures var r := SignupStep(db, encode, req, value, now);
            && r.Success?
            && var after := r.value.0;
               var id := db.userSequence;
               && id !in db.users
               && after.users.Keys == db.users.Keys + {id}
               && (forall other :: other in db.users ==> after.users[other] == db.users[other])
               && after.users[id].email == req.email
               && after.users[id].firstName == req.firstName && after.users[id].lastName == req.lastName
               && after.users[id].password == encode(req.password)
               && after.users[id].enabled == Some(true)
               && after.tokens.Keys == db.tokens.Keys + {value}
               && (forall v :: v in db.tokens ==> after.tokens[v] == db.tokens[v])
               && after.tokens[value].user == id
               && after.tokens[value].confirmedAt == None
               && after.tokens[value].localDateTime == now
               && after.tokens[value].expiresAt == now + CONFIRMATION_TTL
               && after.tokens[value].id == Some(db.tokenSequence)
               && after == db.(users := after.users, tokens := after.tokens,
                               userSequence := db.userSequence + 1, tokenSequence := db.tokenSequence + 1)
               && r.value.1.token == value
               && r.value.1.message == SignupMessage(req)
  {
  }

  /** The checks of `confirmToken` come in a fixed order: an unknown value is "token
      not found"; a consumed token is "email already confirmed" even when it has
      also expired; an unconsumed token whose expiry lies strictly before `now` is
      "token expired"; a token expiring exactly at `now` is still accepted. */
  lemma ConfirmCheckOrder(db: Db, value: string, now: Time)
    requires WellFormed(db)
    ensures var r := ConfirmStep(db, value, now);
            && (value !in db.tokens ==> r == Failure(TOKEN_NOT_FOUND))
            && (value in db.tokens && db.tokens[value].confirmedAt.Some? ==> r == Failure(ALREADY_CONFIRMED))
            && (value in db.tokens && db.tokens[value].confirmedAt.None? && db.tokens[value].expiresAt < now
                ==> r == Failure(TOKEN_EXPIRED))
            && (r.Success? <==> value in db.tokens && db.tokens[value].Usable(now))
            && (value in db.tokens && db.tokens[value].confirmedAt.None? && db.tokens[value].expiresAt == now
                ==> r.Success?)
  {
  }

  /** A successful confirmation sets that token's `confirmedAt` to `now` and
      changes nothing else: no account changes, because enabling the account does
      nothing. */
  lemma ConfirmConsumesOnlyThatToken(db: Db, value: string, now: Time)
    requires WellFormed(db)
    ensures var r := ConfirmStep(db, value, now);
            r.Success? ==>
              && r.value.1 == EMAIL_CONFIRMED
              && r.value.0 == db.(tokens := r.value.0.tokens)
              && r.value.0.tokens.Keys == db.tokens.Keys
              && (forall v :: v in db.tokens && v != value ==> r.value.0.tokens[v] == db.tokens[v])
              && r.value.0.tokens[value] == db.tokens[value].(confirmedAt := Some(now))
  {
  }

  /** A token confirms at most once: after a success, every later call with the
      same value fails with "email already confirmed". */
  lemma ConfirmOnlyOnce(db: Db, value: string, now: Time, later: Time)
    requires WellFormed(db) && ConfirmStep(db, value, now).Success?
    ensures ConfirmStep(ConfirmStep(db, value, now).value.0, value, later) == Failure(ALREADY_CONFIRMED)
  {
  }

  /** The two password entries are compared before the token is looked up: a
      mismatch throws "Incorrect Password" whatever the token, and no password
      changes. */
  lemma ForgotPasswordMismatchFirst(db: Db, encode: string -> string, req: PasswordResetRequest, now: Time)
    requires WellFormed(db) && req.newPassword != req.confirmPassword
    ensures ForgotPasswordStep(db, encode, req, now) == Failure(INCORRECT_PASSWORD)
  {
  }

  /** With matching entries, an unknown token throws "Token not found", a consumed
      or expired one throws "Password Reset Token is expired", and a usable one
      succeeds. */
  lemma ForgotPasswordChecks(db: Db, encode: string -> string, req: PasswordResetRequest, now: Time)
    requires WellFormed(db) && req.newPassword == req.confirmPassword
    ensures var r := ForgotPasswordStep(db, encode, req, now);
            && (req.token !in db.tokens ==> r == Failure(RESET_TOKEN_NOT_FOUND))
            && (req.token in db.tokens && !db.tokens[req.token].Usable(now) ==> r == Failure(RESET_TOKEN_EXPIRED))
            && (r.Success? <==> req.token in db.tokens && db.tokens[req.token].Usable(now))
  {
  }

  /** A successful reset changes only the password of the token's owner, to the
      encoded new password; the token itself is left unconsumed. */
  lemma ForgotPasswordRewritesOwnerPassword(db: Db, encode: string -> string, req: PasswordResetRequest, now: Time)
    requires WellFormed(db)
    ensures var r := ForgotPasswordStep(db, encode, req, now);
            r.Success? ==>
              var owner := db.tokens[req.token].user;
              && r.value.1 == GeneralResponse(PASSWORD_RESET)
              && r.value.0 == db.(users := r.value.0.users)
              && r.value.0.users.Keys == db.users.Keys
              && (forall other :: other in db.users && other != owner ==> r.value.0.users[other] == db.users[other])
              && r.value.0.users[owner] == db.users[owner].(password := encode(req.newPassword))
  {
  }

  /** Because a reset does not consume its token, the token works again: the same
      reset succeeds at any instant up to its expiry, and the token can still
      confirm the e-mail. */
  lemma ResetTokenReusable(db: Db, encode: string -> string, req: PasswordResetRequest, now: Time, later: Time)
    requires WellFormed(db) && ForgotPasswordStep(db, encode, req, now).Success?
    requires later <= db.tokens[req.token].expiresAt
    ensures var after := ForgotPasswordStep(db, encode, req, now).value.0;
            && ForgotPasswordStep(after, encode, req, later).Success?
            && ConfirmStep(after, req.token, later).Success?
  {
  }

  /** A confirmed token no longer resets a password. */
  lemma ConfirmedTokenCannotReset(db: Db, encode: string -> string, req: PasswordResetRequest, now: Time, later: Time)
    requires WellFormed(db) && ConfirmStep(db, req.token, now).Success?
    requires req.newPassword == req.confirmPassword
    ensures ForgotPasswordStep(ConfirmStep(db, req.token, now).value.0, encode, req, later) == Failure(RESET_TOKEN_EXPIRED)
  {
  }

  /** An unknown e-mail throws "User not Found"; otherwise one new token is added
      for an account with that e-mail, unconsumed, expiring 15 minutes after `now`,
      and every earlier token, still valid or not, stays as it was. */
  lemma ResendMintsToken(db: Db, email: string, value: string, now: Time)
    requires WellFormed(db) && value !in db.tokens
    ensures var r := ResendStep(db, email, value, now);
            && (!EmailTaken(db.users, email) <==> r == Failure(RESEND_USER_NOT_FOUND))
            && (r.Success? ==>
                  var after := r.value.0;
                  var row := after.tokens[value];
                  && r.value.1 == GeneralResponse(VERIFICATION_RESENT)
                  && after == db.(tokens := after.tokens, tokenSequence := db.tokenSequence + 1)
                  && after.tokens.Keys == db.tokens.Keys + {value}
                  && (forall v :: v in db.tokens ==> after.tokens[v] == db.tokens[v])
                  && row.user in db.users && db.users[row.user].email == email
                  && row.confirmedAt == None && row.localDateTime == now
                  && row.expiresAt == now + CONFIRMATION_TTL
                  && row.id == Some(db.tokenSequence))
  {
  }

  /** The whole registration story: a fresh sign-up returns the token value; that
      token confirms once within 15 minutes, leaving the account (already enabled
      at sign-up) as it was; a second confirmation fails with "email already
      confirmed". */
  lemma SignupThenConfirmOnce(
    db: Db, encode: string -> string, req: RegistrationRequest, value: string,
    signedUp: Time, confirmed: Time, again: Time)
    requires WellFormed(db) && value !in db.tokens && !EmailTaken(db.users, req.email)
    requires confirmed <= signedUp + CONFIRMATION_TTL
    ensures var s := SignupStep(db, encode, req, value, signedUp);
            && s.Success? && s.value.1.token == value
            && var c := ConfirmStep(s.value.0, s.value.1.token, confirmed);
               && c.Success?
               && c.value.0.users == s.value.0.users
               && c.value.0.users[db.userSequence].enabled == Some(true)
               && ConfirmStep(c.value.0, value, again) == Failure(ALREADY_CONFIRMED)
  {
    SignupCreatesAccountAndToken(db, encode, req, value, signedUp);
    var s := SignupStep(db, encode, req, value, signedUp);
    ConfirmCheckOrder(s.value.0, value, confirmed);
    ConfirmOnlyOnce(s.value.0, value, confirmed, again);
  }

  /** A sign-up token presented after its 15 minutes fails with "token expired". */
  lemma SignupThenLateConfirmExpires(
    db: Db, encode: string -> string, req: RegistrationRequest, value: string, signedUp: Time, late: Time)
    requires WellFormed(db) && value !in db.tokens && !EmailTaken(db.users, req.email)
    requires late > signedUp + CONFIRMATION_TTL
    ensures var s := SignupStep(db, encode, req, value, signedUp);
            s.Success? && ConfirmStep(s.value.0, value, late) == Failure(TOKEN_EXPIRED)
  {
    SignupCreatesAccountAndToken(db, encode, req, value, signedUp);
  }

  class AuthenticationService {
    const repo: Repositories
    const userService: UserService
    const encode: string -> string

    constructor (repo: Repositories, userService: UserService, encode: string -> string)
      ensures this.repo == repo && this.userService == userService && this.encode == encode
    {
      this.repo := repo;
      this.userService := userService;
      this.encode := encode;
    }

    /** `value` is the random UUID the source draws; it is taken to be unused. The
        verification e-mail is outbound I/O and is not modelled. */
    method Signup(req: RegistrationRequest, value: string, now: Time) returns (r: Result<RegistrationResponse>)
      requires repo.Valid() && value !in repo.tokens
      modifies repo
      ensures repo.Valid()
      ensures Realises(SignupStep(old(repo.State()), encode, req, value, now), r, old(repo.State()), repo.State())
    {
      var existing := repo.FindByEmail(req.email);
      if existing.Some? {
        return Failure(DUPLICATE_EMAIL);
      }
      var user := NewAccount(req, encode);
      var id := repo.InsertUser(user);
      var ct := new ConfirmationToken(value, now, now + CONFIRMATION_TTL, id);
      repo.SaveConfirmationToken(ct);
      return Success(RegistrationResponse(SignupMessage(req), value));
    }

    method ConfirmToken(value: string, now: Time) returns (r: Result<string>)
      requires repo.Valid()
      modifies repo, repo.tokens.Values
      ensures repo.Valid()
      ensures repo.tokens == old(repo.tokens)
      ensures Realises(ConfirmStep(old(repo.State()), value, now), r, old(repo.State()), repo.State())
    {
      ghost var before := repo.State();
      var found := repo.GetToken(value);
      if found.None? {
        assert value !in before.tokens;
        return Failure(TOKEN_NOT_FOUND);
      }
      var ct := found.value;
      assert before.tokens[value] == ct.Row();
      if ct.confirmedAt.Some? {
        return Failure(ALREADY_CONFIRMED);
      }
      var expiredAt := ct.expiresAt;
      if IsBefore(expiredAt, now) {
        return Failure(TOKEN_EXPIRED);
      }
      // the owner's e-mail, read before consuming: consuming changes no account
      var email := repo.users[ct.user].email;
      assert ConfirmStep(before, value, now) == Success((ConsumeToken(before, value, now), EMAIL_CONFIRMED));
      repo.SetConfirmedAt(value, now);
      userService.EnableUser(email);
      return Success(EMAIL_CONFIRMED);
    }

    method ForgotPassword(req: PasswordResetRequest, now: Time) returns (r: Result<GeneralResponse>)
      requires repo.Valid()
      modifies repo
      ensures repo.Valid()
      ensures Realises(ForgotPasswordStep(old(repo.State()), encode, req, now), r, old(repo.State()), repo.State())
    {
      if req.newPassword != req.confirmPassword {
        return Failure(INCORRECT_PASSWORD);
      }
      var found := repo.GetToken(req.token);
      if found.None? {
        return Failure(RESET_TOKEN_NOT_FOUND);
      }
      var ct := found.value;
      if ct.confirmedAt.Some? || IsBefore(ct.expiresAt, now) {
        return Failure(RESET_TOKEN_EXPIRED);
      }
      var owner := ct.user;
      assert owner in repo.users by {
        assert repo.rows[req.token] == ct.Row();
      }
      var user := repo.users[owner].(password := encode(req.newPassword));
      repo.SaveUser(owner, user);
      return Success(GeneralResponse(PASSWORD_RESET));
    }

    /** `authenticated` is the verdict of the authentication manager and
        `generateToken` the JWT service, both outside this model. Reads only. */
    method Signin(req: AuthenticationRequest, authenticated: bool, generateToken: User -> string)
      returns (r: Result<AuthenticationResponse>)
      ensures !authenticated ==> r == Failure(BadCredentials)
      ensures authenticated && !EmailTaken(repo.users, req.username) ==> r == Failure(SIGNIN_USER_NOT_FOUND)
      ensures authenticated && EmailTaken(repo.users, req.username) ==>
                var owner := EmailOwner(repo.users, req.username).value;
                r == Success(AuthenticationResponse(generateToken(repo.users[owner]), SIGNED_IN))
    {
      if !authenticated {
        return Failure(BadCredentials);
      }
      var found := repo.FindByEmail(req.username);
      if found.None? {
        return Failure(SIGNIN_USER_NOT_FOUND);
      }
      var token := generateToken(repo.users[found.value]);
      return Success(AuthenticationResponse(token, SIGNED_IN));
    }

    /** `value` is the random UUID the source draws; it is taken to be unused. */
    method ResendVerification(email: string, value: string, now: Time) returns (r: Result<GeneralResponse>)
      requires repo.Valid() && value !in repo.tokens
      modifies repo
      ensures repo.Valid()
      ensures Realises(ResendStep(old(repo.State()), email, value, now), r, old(repo.State()), repo.State())
    {
      var found := repo.FindByEmail(email);
      if found.None? {
        return Failure(RESEND_USER_NOT_FOUND);
      }
      var ct := new ConfirmationToken(value, now, now + CONFIRMATION_TTL, found.value);
      repo.SaveConfirmationToken(ct);
      return Success(GeneralResponse(VERIFICATION_RESENT));
    }
  }
}
