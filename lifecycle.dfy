/** Any sequence of service calls, run against the stores one after another, and
    what such a history can and cannot do: it keeps the stores well formed, never
    removes an account or a token, changes a stored token only by consuming it
    once, and never alters an issued refresh token. */
module Lifecycle {
  import opened Common
  import opened Models
  import opened ConfirmationTokens
  import opened Store
  import opened Users
  import opened Admin
  import opened RefreshTokens
  import opened Authentication

  /** One call into a service, with the instant and the fresh token value it uses. */
  datatype Op =
    | SignupOp(registration: RegistrationRequest, value: string, now: Time)
    | ConfirmOp(token: string, now: Time)
    | ForgotPasswordOp(reset: PasswordResetRequest, now: Time)
    | ResendOp(email: string, value: string, now: Time)
    | UpdateUserOp(id: UserId, profile: UserRequestDto)
    | DeleteUserOp(id: UserId)
    | UpdatePasswordOp(id: UserId, change: PasswordResetRequest)
    | PartialUpdateOp(id: UserId, locked: Option<bool>, enabled: Option<bool>)
    | RefreshOp(userId: UserId, value: string, now: Time)

  /** The password encoder and the configured refresh-token lifetime. */
  datatype Config = Config(encode: string -> string, refreshTokenDurationMs: int)

  /** The stores after a call: a call that throws leaves them as they were. */
  function Next<T>(step: Result<(Db, T)>, db: Db): Db
  {
    if step.Success? then step.value.0 else db
  }

  /** One call. A call whose fresh token value is already stored would break the
      uniqueness of UUIDs and is skipped. */
  function Apply(cfg: Config, db: Db, op: Op): (after: Db)
    requires WellFormed(db)
    ensures WellFormed(after)
  {
    match op
    case SignupOp(req, value, now) =>
      if value in db.tokens then db else Next(SignupStep(db, cfg.encode, req, value, now), db)
    case ConfirmOp(value, now) => Next(ConfirmStep(db, value, now), db)
    case ForgotPasswordOp(req, now) => Next(ForgotPasswordStep(db, cfg.encode, req, now), db)
    case ResendOp(email, value, now) =>
      if value in db.tokens then db else Next(ResendStep(db, email, value, now), db)
    case UpdateUserOp(id, req) => Next(UpdateUserStep(db, id, req), db)
    case DeleteUserOp(id) => Next(DeleteUserStep(db, id), db)
    case UpdatePasswordOp(id, req) => Next(UpdatePasswordStep(db, cfg.encode, id, req), db)
    case PartialUpdateOp(id, locked, enabled) => Next(PartialUpdateStep(db, id, locked, enabled), db)
    case RefreshOp(userId, value, now) => Next(RefreshStep(db, userId, value, now, cfg.refreshTokenDurationMs), db)
  }

  /** The calls `ops`, in order. Every history keeps the stores well formed. */
  function Run(cfg: Config, db: Db, ops: seq<Op>): (after: Db)
    requires WellFormed(db)
    ensures WellFormed(after)
    decreases |ops|
  {
    if ops == [] then db else Run(cfg, Apply(cfg, db, ops[0]), ops[1..])
  }

  /** `after` is a possible later state of `before`: no account, token or refresh
      token disappears; a token changes only in `confirmedAt`, and only from null;
      a refresh token never changes; the id sequences never go back. */
  ghost predicate Evolves(before: Db, after: Db)
  {
    && before.users.Keys <= after.users.Keys
    && (forall v :: v in before.tokens ==> v in after.tokens && TokenEvolves(before.tokens[v], after.tokens[v]))
    && (forall k :: k in before.refreshTokens ==>
          k in after.refreshTokens && after.refreshTokens[k] == before.refreshTokens[k])
    && before.userSequence <= after.userSequence
    && before.tokenSequence <= after.tokenSequence
    && before.refreshSequence <= after.refreshSequence
  }

  ghost predicate TokenEvolves(before: TokenRow, after: TokenRow)
  {
    && after == before.(confirmedAt := after.confirmedAt)
    && (before.confirmedAt.Some? ==> after.confirmedAt == before.confirmedAt)
  }

  lemma EvolvesTransitive(a: Db, b: Db, c: Db)
    requires Evolves(a, b) && Evolves(b, c)
    ensures Evolves(a, c)
  {
  }

  lemma EvolvesReflexive(db: Db)
    ensures Evolves(db, db)
  {
  }

  lemma UsersEvolve(db: Db, users: map<UserId, User>)
    requires db.users.Keys <= users.Keys
    ensures Evolves(db, db.(users := users))
  {
  }

  lemma AddUserEvolves(db: Db, u: User)
    ensures Evolves(db, AddUser(db, u))
  {
  }

  lemma AddTokenEvolves(db: Db, value: string, now: Time, owner: UserId)
    requires value !in db.tokens
    ensures Evolves(db, AddToken(db, value, now, owner))
  {
  }

  lemma ConsumeTokenEvolves(db: Db, value: string, now: Time)
    requires value in db.tokens && db.tokens[value].confirmedAt.None?
    ensures Evolves(db, ConsumeToken(db, value, now))
  {
  }

  lemma AddRefreshTokenEvolves(db: Db, saved: RefreshToken)
    requires saved.id !in db.refreshTokens && db.refreshSequence <= saved.id + 1
    ensures Evolves(db, db.(refreshTokens := db.refreshTokens[saved.id := saved], refreshSequence := saved.id + 1))
  {
  }

  /** Every account keeps its id and its e-mail. */
  ghost predicate SameEmails(before: map<UserId, User>, after: map<UserId, User>)
  {
    after.Keys == before.Keys && forall id :: id in after ==> after[id].email == before[id].email
  }

  lemma SignupPreserves(cfg: Config, db: Db, req: RegistrationRequest, value: string, now: Time)
    requires WellFormed(db)
    ensures var after := Apply(cfg, db, SignupOp(req, value, now));
            && Evolves(db, after)
            && (UniqueEmails(db.users) ==> UniqueEmails(after.users))
  {
    if value in db.tokens || EmailTaken(db.users, req.email) {
      EvolvesReflexive(db);
    } else {
      var account := NewAccount(req, cfg.encode);
      var withUser := AddUser(db, account);
      AddUserEvolves(db, account);
      AddTokenEvolves(withUser, value, now, db.userSequence);
      EvolvesTransitive(db, withUser, AddToken(withUser, value, now, db.userSequence));
      assert Apply(cfg, db, SignupOp(req, value, now)).users == db.users[db.userSequence := account];
    }
  }

  lemma ConfirmPreserves(cfg: Config, db: Db, value: string, now: Time)
    requires WellFormed(db)
    ensures var after := Apply(cfg, db, ConfirmOp(value, now));
            Evolves(db, after) && after.users == db.users
  {
    if ConfirmStep(db, value, now).Success? {
      ConsumeTokenEvolves(db, value, now);
    } else {
      EvolvesReflexive(db);
    }
  }

  lemma ResendPreserves(cfg: Config, db: Db, email: string, value: string, now: Time)
    requires WellFormed(db)
    ensures var after := Apply(cfg, db, ResendOp(email, value, now));
            Evolves(db, after) && after.users == db.users
  {
    if value in db.tokens || !EmailTaken(db.users, email) {
      EvolvesReflexive(db);
    } else {
      AddTokenEvolves(db, value, now, EmailOwner(db.users, email).value);
    }
  }

  lemma RefreshPreserves(cfg: Config, db: Db, userId: UserId, value: string, now: Time)
    requires WellFormed(db)
    ensures var after := Apply(cfg, db, RefreshOp(userId, value, now));
            Evolves(db, after) && after.users == db.users
  {
    if userId in db.users {
      AddRefreshTokenEvolves(db, RefreshStep(db, userId, value, now, cfg.refreshTokenDurationMs).value.1.token);
    } else {
      EvolvesReflexive(db);
    }
  }

  lemma ForgotPasswordPreserves(cfg: Config, db: Db, req: PasswordResetRequest, now: Time)
    requires WellFormed(db)
    ensures var after := Apply(cfg, db, ForgotPasswordOp(req, now));
            Evolves(db, after) && SameEmails(db.users, after.users)
  {
    var after := Apply(cfg, db, ForgotPasswordOp(req, now));
    assert after == db.(users := after.users);
    UsersEvolve(db, after.users);
  }

  lemma UpdateUserPreserves(cfg: Config, db: Db, id: UserId, req: UserRequestDto)
    requires WellFormed(db)
    ensures Evolves(db, Apply(cfg, db, UpdateUserOp(id, req)))
  {
    var after := Apply(cfg, db, UpdateUserOp(id, req));
    assert after == db.(users := after.users);
    UsersEvolve(db, after.users);
  }

  lemma DeleteUserPreserves(cfg: Config, db: Db, id: UserId)
    requires WellFormed(db)
    ensures var after := Apply(cfg, db, DeleteUserOp(id));
            Evolves(db, after) && SameEmails(db.users, after.users)
  {
    var after := Apply(cfg, db, DeleteUserOp(id));
    assert after == db.(users := after.users);
    UsersEvolve(db, after.users);
  }

  lemma UpdatePasswordPreserves(cfg: Config, db: Db, id: UserId, req: PasswordResetRequest)
    requires WellFormed(db)
    ensures var after := Apply(cfg, db, UpdatePasswordOp(id, req));
            Evolves(db, after) && SameEmails(db.users, after.users)
  {
    var after := Apply(cfg, db, UpdatePasswordOp(id, req));
    assert after == db.(users := after.users);
    UsersEvolve(db, after.users);
  }

  lemma PartialUpdatePreserves(cfg: Config, db: Db, id: UserId, locked: Option<bool>, enabled: Option<bool>)
    requires WellFormed(db)
    ensures var after := Apply(cfg, db, PartialUpdateOp(id, locked, enabled));
            Evolves(db, after) && SameEmails(db.users, after.users)
  {
    var after := Apply(cfg, db, PartialUpdateOp(id, locked, enabled));
    assert after == db.(users := after.users);
    UsersEvolve(db, after.users);
  }

  /** Every single call moves the stores forward in the sense of `Evolves`. */
  lemma ApplyEvolves(cfg: Config, db: Db, op: Op)
    requires WellFormed(db)
    ensures Evolves(db, Apply(cfg, db, op))
  {
    match op
    case SignupOp(req, value, now) => SignupPreserves(cfg, db, req, value, now);
    case ConfirmOp(value, now) => ConfirmPreserves(cfg, db, value, now);
    case ForgotPasswordOp(req, now) => ForgotPasswordPreserves(cfg, db, req, now);
    case ResendOp(email, value, now) => ResendPreserves(cfg, db, email, value, now);
    case UpdateUserOp(id, req) => UpdateUserPreserves(cfg, db, id, req);
    case DeleteUserOp(id) => DeleteUserPreserves(cfg, db, id);
    case UpdatePasswordOp(id, req) => UpdatePasswordPreserves(cfg, db, id, req);
    case PartialUpdateOp(id, locked, enabled) => PartialUpdatePreserves(cfg, db, id, locked, enabled);
    case RefreshOp(userId, value, now) => RefreshPreserves(cfg, db, userId, value, now);
  }

  /** Every history moves the stores forward in the sense of `Evolves`. */
  lemma {:induction false} RunEvolves(cfg: Config, db: Db, ops: seq<Op>)
    requires WellFormed(db)
    ensures Evolves(db, Run(cfg, db, ops))
    decreases |ops|
  {
    if ops != [] {
      var next := Apply(cfg, db, ops[0]);
      ApplyEvolves(cfg, db, ops[0]);
      RunEvolves(cfg, next, ops[1..]);
      EvolvesTransitive(db, next, Run(cfg, next, ops[1..]));
    }
  }

  /** A consumed confirmation token stays consumed, with the same instant, through
      any later history: confirming it again always fails with "email already
      confirmed" and it never resets a password. */
  lemma {:induction false} ConsumedTokenStaysConsumed(
    cfg: Config, db: Db, ops: seq<Op>, value: string, later: Time, req: PasswordResetRequest)
    requires WellFormed(db) && value in db.tokens && db.tokens[value].confirmedAt.Some?
    requires req.token == value && req.newPassword == req.confirmPassword
    ensures var after := Run(cfg, db, ops);
            && value in after.tokens
            && after.tokens[value].confirmedAt == db.tokens[value].confirmedAt
            && ConfirmStep(after, value, later) == Failure(ALREADY_CONFIRMED)
            && ForgotPasswordStep(after, cfg.encode, req, later) == Failure(RESET_TOKEN_EXPIRED)
  {
    RunEvolves(cfg, db, ops);
  }

  /** No two accounts share an e-mail. */
  ghost predicate UniqueEmails(users: map<UserId, User>)
  {
    forall a, b :: a in users && b in users && users[a].email == users[b].email ==> a == b
  }

  /** Replacing accounts without touching their e-mails keeps e-mails unique. */
  lemma SameEmailsStayUnique(before: map<UserId, User>, after: map<UserId, User>)
    requires UniqueEmails(before) && SameEmails(before, after)
    ensures UniqueEmails(after)
  {
  }

  /** Sign-up refuses a taken e-mail and no call other than a profile update
      touches an e-mail, so a call that is not a profile update keeps e-mails
      unique. */
  lemma ApplyKeepsEmailsUnique(cfg: Config, db: Db, op: Op)
    requires WellFormed(db) && UniqueEmails(db.users) && !op.UpdateUserOp?
    ensures UniqueEmails(Apply(cfg, db, op).users)
  {
    var after := Apply(cfg, db, op);
    match op
    case SignupOp(req, value, now) => SignupPreserves(cfg, db, req, value, now);
    case ConfirmOp(value, now) => ConfirmPreserves(cfg, db, value, now);
    case ResendOp(email, value, now) => ResendPreserves(cfg, db, email, value, now);
    case RefreshOp(userId, value, now) => RefreshPreserves(cfg, db, userId, value, now);
    case ForgotPasswordOp(req, now) =>
      ForgotPasswordPreserves(cfg, db, req, now);
      SameEmailsStayUnique(db.users, after.users);
    case DeleteUserOp(id) =>
      DeleteUserPreserves(cfg, db, id);
      SameEmailsStayUnique(db.users, after.users);
    case UpdatePasswordOp(id, req) =>
      UpdatePasswordPreserves(cfg, db, id, req);
      SameEmailsStayUnique(db.users, after.users);
    case PartialUpdateOp(id, locked, enabled) =>
      PartialUpdatePreserves(cfg, db, id, locked, enabled);
      SameEmailsStayUnique(db.users, after.users);
  }

  /** Without profile updates, a history that starts with unique e-mails keeps them
      unique; `UpdateUserCanDuplicateEmail` shows that one profile update can break
      this. */
  lemma {:induction false} EmailsStayUniqueWithoutProfileUpdates(cfg: Config, db: Db, ops: seq<Op>)
    requires WellFormed(db) && UniqueEmails(db.users)
    requires forall i :: 0 <= i < |ops| ==> !ops[i].UpdateUserOp?
    ensures UniqueEmails(Run(cfg, db, ops).users)
    decreases |ops|
  {
    if ops != [] {
      ApplyKeepsEmailsUnique(cfg, db, ops[0]);
      EmailsStayUniqueWithoutProfileUpdates(cfg, Apply(cfg, db, ops[0]), ops[1..]);
    }
  }

  /** The empty stores are well formed and have unique e-mails, so every history
      from them that makes no profile update leaves each e-mail with at most one
      account, and `findByEmail` is unambiguous. */
  lemma FromEmptyEmailsUnique(cfg: Config, ops: seq<Op>)
    requires forall i :: 0 <= i < |ops| ==> !ops[i].UpdateUserOp?
    ensures WellFormed(EMPTY)
    ensures UniqueEmails(Run(cfg, EMPTY, ops).users)
  {
    EmailsStayUniqueWithoutProfileUpdates(cfg, EMPTY, ops);
  }
}
