/** Self-service account operations: confirming (a no-op), profile update, soft
    delete and password change. */
module Users {
  import opened Common
  import opened Models
  import opened Store
  import opened UserMapper

  /** The profile update answers with the delete message, as the source does. */
  const PROFILE_UPDATED: string := "User deleted successfully"
  const USER_DELETED: string := "User deleted successfully"
  const PASSWORD_UPDATED: string := "User password updated successfully"

  /** `updateUser`: replaces e-mail and names of the account `id`. */
  function UpdateUserStep(db: Db, id: UserId, req: UserRequestDto): (r: Result<(Db, ResponseDto<UserResponseDto>)>)
    requires WellFormed(db)
    ensures r.Success? ==> WellFormed(r.value.0)
  {
    if id !in db.users then Failure(USER_NOT_FOUND)
    else
      var user := db.users[id].(email := req.email, firstName := req.firstName, lastName := req.lastName);
      Success((db.(users := db.users[id := user]), ResponseDto(Some(ToDto(user)), PROFILE_UPDATED)))
  }

  /** `deleteUser`: flags the account deleted, disabled and locked. */
  function DeleteUserStep(db: Db, id: UserId): (r: Result<(Db, ResponseDto<string>)>)
    requires WellFormed(db)
    ensures r.Success? ==> WellFormed(r.value.0)
  {
    if id !in db.users then Failure(USER_NOT_FOUND)
    else
      var user := db.users[id].(isDeleted := Some(true), enabled := Some(false), locked := Some(true));
      Success((db.(users := db.users[id := user]), ResponseDto(None, USER_DELETED)))
  }

  /** `updatePassword`: stores the encoded new password when the two entries agree,
      and saves the account either way. */
  function UpdatePasswordStep(db: Db, encode: string -> string, id: UserId, req: PasswordResetRequest)
    : (r: Result<(Db, ResponseDto<string>)>)
    requires WellFormed(db)
    ensures r.Success? ==> WellFormed(r.value.0)
  {
    if id !in db.users then Failure(USER_NOT_FOUND)
    else
      var user := if req.newPassword == req.confirmPassword
                  then db.users[id].(password := encode(req.newPassword))
                  else db.users[id];
      Success((db.(users := db.users[id := user]), ResponseDto(None, PASSWORD_UPDATED)))
  }

  /** An unknown id throws "User not found"; otherwise exactly e-mail and names of
      that account change, to the requested ones (even to an e-mail another account
      already has), every other store and account stays as it was, and the returned
      view shows the new values. */
  lemma UpdateUserReplacesProfile(db: Db, id: UserId, req: UserRequestDto)
    requires WellFormed(db)
    ensures var r := UpdateUserStep(db, id, req);
            && (id !in db.users <==> r == Failure(USER_NOT_FOUND))
            && (r.Success? ==>
                  var after := r.value.0;
                  var prior := db.users[id];
                  var updated := after.users[id];
                  && after == db.(users := after.users)
                  && after.users.Keys == db.users.Keys
                  && (forall other :: other in db.users && other != id ==> after.users[other] == db.users[other])
                  && updated.email == req.email && updated.firstName == req.firstName && updated.lastName == req.lastName
                  && updated.password == prior.password && updated.enabled == prior.enabled
                  && updated.locked == prior.locked && updated.isDeleted == prior.isDeleted
                  && r.value.1.message == PROFILE_UPDATED
                  && r.value.1.response == Some(UserResponseDto(req.email, req.firstName + req.lastName,
                                                                prior.locked, prior.enabled)))
  {
  }

  /** The update does not check the new e-mail against the other accounts: it can
      leave two accounts with one e-mail. */
  lemma UpdateUserCanDuplicateEmail(db: Db, id: UserId, other: UserId, req: UserRequestDto)
    requires WellFormed(db) && id in db.users && other in db.users && other != id
    requires db.users[other].email == req.email
    ensures var r := UpdateUserStep(db, id, req);
            r.Success? && r.value.0.users[id].email == r.value.0.users[other].email
  {
  }

  /** Deleting keeps the account in the store, marks it deleted, disabled and
      locked, and changes nothing else. */
  lemma DeleteIsSoft(db: Db, id: UserId)
    requires WellFormed(db)
    ensures var r := DeleteUserStep(db, id);
            && (id !in db.users <==> r == Failure(USER_NOT_FOUND))
            && (r.Success? ==>
                  var after := r.value.0;
                  && after == db.(users := after.users)
                  && after.users.Keys == db.users.Keys
                  && (forall other :: other in db.users && other != id ==> after.users[other] == db.users[other])
                  && after.users[id] == db.users[id].(isDeleted := Some(true), enabled := Some(false), locked := Some(true))
                  && r.value.1 == ResponseDto(None, USER_DELETED))
  {
  }

  /** The password becomes `encode(new)` exactly when the two entries agree; on a
      mismatch the call still reports success and the stored password stays. */
  lemma UpdatePasswordOnlyOnMatch(db: Db, encode: string -> string, id: UserId, req: PasswordResetRequest)
    requires WellFormed(db)
    ensures var r := UpdatePasswordStep(db, encode, id, req);
            && (id !in db.users <==> r == Failure(USER_NOT_FOUND))
            && (r.Success? ==>
                  var after := r.value.0;
                  && r.value.1 == ResponseDto(None, PASSWORD_UPDATED)
                  && after == db.(users := after.users)
                  && after.users.Keys == db.users.Keys
                  && (forall other :: other in db.users && other != id ==> after.users[other] == db.users[other])
                  && after.users[id] == db.users[id].(password := after.users[id].password)
                  && (req.newPassword == req.confirmPassword ==> after.users[id].password == encode(req.newPassword))
                  && (req.newPassword != req.confirmPassword ==> after == db))
  {
  }

  class UserService {
    const repo: Repositories
    const encode: string -> string

    constructor (repo: Repositories, encode: string -> string)
      ensures this.repo == repo && this.encode == encode
    {
      this.repo := repo;
      this.encode := encode;
    }

    /** Confirming an e-mail is meant to enable the account; the body is empty, so
        no store changes. */
    method EnableUser(email: string)
      ensures repo.State() == old(repo.State())
    {
    }

    method UpdateUser(id: UserId, req: UserRequestDto) returns (r: Result<ResponseDto<UserResponseDto>>)
      requires repo.Valid()
      modifies repo
      ensures repo.Valid()
      ensures Realises(UpdateUserStep(old(repo.State()), id, req), r, old(repo.State()), repo.State())
    {
      var found := repo.FindById(id);
      if found.None? {
        return Failure(USER_NOT_FOUND);
      }
      var user := found.value.(email := req.email, firstName := req.firstName, lastName := req.lastName);
      repo.SaveUser(id, user);
      var dto := ToDto(user);
      return Success(ResponseDto(Some(dto), PROFILE_UPDATED));
    }

    method DeleteUser(id: UserId) returns (r: Result<ResponseDto<string>>)
      requires repo.Valid()
      modifies repo
      ensures repo.Valid()
      ensures Realises(DeleteUserStep(old(repo.State()), id), r, old(repo.State()), repo.State())
    {
      var found := repo.FindById(id);
      if found.None? {
        return Failure(USER_NOT_FOUND);
      }
      var user := found.value.(isDeleted := Some(true));
      user := user.(enabled := Some(false));
      user := user.(locked := Some(true));
      repo.SaveUser(id, user);
      return Success(ResponseDto(None, USER_DELETED));
    }

    method UpdatePassword(id: UserId, req: PasswordResetRequest) returns (r: Result<ResponseDto<string>>)
      requires repo.Valid()
      modifies repo
      ensures repo.Valid()
      ensures Realises(UpdatePasswordStep(old(repo.State()), encode, id, req), r, old(repo.State()), repo.State())
    {
      var found := repo.FindById(id);
      if found.None? {
        return Failure(USER_NOT_FOUND);
      }
      var user := found.value;
      if req.newPassword == req.confirmPassword {
        var password := encode(req.newPassword);
        user := user.(password := password);
      }
      repo.SaveUser(id, user);
      return Success(ResponseDto(None, PASSWORD_UPDATED));
    }
  }
}
