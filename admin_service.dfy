/** Administrator operations: reading one account and overriding its lock and
    enable flags. */
module Admin {
  import opened Common
  import opened Models
  import opened Store
  import opened UserMapper

  const USER_STATUS_UPDATED: string := "User updated successfully"
  const FOUND_PREFIX: string := "Found user with id "

  /** `String.format("Found user with id %d", id)`. */
  function FoundMessage(id: UserId): string
  {
    FOUND_PREFIX + Decimal(id)
  }

  /** The message names the account: the id reads back from it, so two ids never
      share a message. */
  lemma FoundMessageNamesId(id: UserId)
    ensures |FoundMessage(id)| > |FOUND_PREFIX|
    ensures FoundMessage(id)[..|FOUND_PREFIX|] == FOUND_PREFIX
    ensures ParseDecimal(FoundMessage(id)[|FOUND_PREFIX|..]) == id
  {
    assert FoundMessage(id)[|FOUND_PREFIX|..] == Decimal(id);
    DecimalRoundTrip(id);
  }

  /** Different accounts are found under different messages. */
  lemma FoundMessageInjective(a: UserId, b: UserId)
    requires FoundMessage(a) == FoundMessage(b)
    ensures a == b
  {
    assert Decimal(a) == FoundMessage(a)[|FOUND_PREFIX|..];
    assert Decimal(b) == FoundMessage(b)[|FOUND_PREFIX|..];
    DecimalInjective(a, b);
  }

  /** `partialUpdateUser`: stores both arguments as the account's `locked` and
      `enabled`, null included. */
  function PartialUpdateStep(db: Db, id: UserId, locked: Option<bool>, enabled: Option<bool>)
    : (r: Result<(Db, ResponseDto<string>)>)
    requires WellFormed(db)
    ensures r.Success? ==> WellFormed(r.value.0)
  {
    if id !in db.users then Failure(USER_NOT_FOUND)
    else
      var user := db.users[id].(locked := locked, enabled := enabled);
      Success((db.(users := db.users[id := user]), ResponseDto(None, USER_STATUS_UPDATED)))
  }

  /** An unknown id throws "User not found"; otherwise `locked` and `enabled` take
      the given values (an omitted one becomes null), e-mail, names, password and
      the soft-delete flag stay, and no other account or store changes. */
  lemma PartialUpdateOverwritesFlags(db: Db, id: UserId, locked: Option<bool>, enabled: Option<bool>)
    requires WellFormed(db)
    ensures var r := PartialUpdateStep(db, id, locked, enabled);
            && (id !in db.users <==> r == Failure(USER_NOT_FOUND))
            && (r.Success? ==>
                  var after := r.value.0;
                  var prior := db.users[id];
                  var updated := after.users[id];
                  && r.value.1 == ResponseDto(None, USER_STATUS_UPDATED)
                  && after == db.(users := after.users)
                  && after.users.Keys == db.users.Keys
                  && (forall other :: other in db.users && other != id ==> after.users[other] == db.users[other])
                  && updated.locked == locked && updated.enabled == enabled
                  && updated.email == prior.email && updated.firstName == prior.firstName
                  && updated.lastName == prior.lastName && updated.password == prior.password
                  && updated.isDeleted == prior.isDeleted)
  {
  }

  class AdminService {
    const repo: Repositories

    constructor (repo: Repositories)
      ensures this.repo == repo
    {
      this.repo := repo;
    }

    /** `getUser`: the public view of the account `id`, with a message naming the
        id; an unknown id throws "User not found". Reads only. */
    function GetUser(id: UserId): (r: Result<ResponseDto<UserResponseDto>>)
      reads repo
      ensures r.Failure? <==> id !in repo.users
      ensures r.Failure? ==> r.error == USER_NOT_FOUND
      ensures r.Success? ==> r.value.response == Some(ToDto(repo.users[id]))
      ensures r.Success? ==> |r.value.message| > |FOUND_PREFIX|
      ensures r.Success? ==> r.value.message[..|FOUND_PREFIX|] == FOUND_PREFIX
      ensures r.Success? ==> ParseDecimal(r.value.message[|FOUND_PREFIX|..]) == id
    {
      if id !in repo.users then Failure(USER_NOT_FOUND)
      else
        FoundMessageNamesId(id);
        Success(ResponseDto(Some(ToDto(repo.users[id])), FoundMessage(id)))
    }

    method PartialUpdateUser(id: UserId, locked: Option<bool>, enabled: Option<bool>)
      returns (r: Result<ResponseDto<string>>)
      requires repo.Valid()
      modifies repo
      ensures repo.Valid()
      ensures Realises(PartialUpdateStep(old(repo.State()), id, locked, enabled), r, old(repo.State()), repo.State())
    {
      var found := repo.FindById(id);
      if found.None? {
        return Failure(USER_NOT_FOUND);
      }
      var user := found.value.(locked := locked);
      user := user.(enabled := enabled);
      repo.SaveUser(id, user);
      return Success(ResponseDto(None, USER_STATUS_UPDATED));
    }
  }
}
