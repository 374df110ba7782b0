/** Issuing refresh tokens and testing their expiry. */
module RefreshTokens {
  import opened Common
  import opened Models
  import opened Store

  const TOKEN_REFRESHED: string := "Token refreshed successfully"

  /** `isTokenExpired`: the expiry lies strictly before `now`. */
  predicate IsTokenExpired(token: RefreshToken, now: Time): (r: bool)
    ensures r <==> token.expiryDate < now
    ensures r ==> token.expiryDate != now
  {
    IsBefore(token.expiryDate, now)
  }

  /** `refreshToken`: a new token for account `userId`, expiring `durationMs`
      after `now`; `Optional.get` throws when the account does not exist. */
  function RefreshStep(db: Db, userId: UserId, value: string, now: Time, durationMs: int)
    : (r: Result<(Db, RefreshTokenResponse)>)
    requires WellFormed(db)
    ensures r.Success? ==> WellFormed(r.value.0)
  {
    if userId !in db.users then Failure(NoSuchElement)
    else
      var saved := RefreshToken(db.refreshSequence, value, now + durationMs, userId);
      Success((db.(refreshTokens := db.refreshTokens[saved.id := saved], refreshSequence := saved.id + 1),
               RefreshTokenResponse(TOKEN_REFRESHED, saved)))
  }

  /** An unknown account throws before anything is saved; otherwise exactly one
      refresh token is added, under a new id, bound to that account, expiring
      `durationMs` after `now`; the account's earlier tokens and every other store
      stay, and the response carries the very token saved. */
  lemma RefreshIssuesOneToken(db: Db, userId: UserId, value: string, now: Time, durationMs: int)
    requires WellFormed(db)
    ensures var r := RefreshStep(db, userId, value, now, durationMs);
            && (userId !in db.users <==> r == Failure(NoSuchElement))
            && (r.Success? ==>
                  var after := r.value.0;
                  var saved := r.value.1.token;
                  && r.value.1.message == TOKEN_REFRESHED
                  && saved.id !in db.refreshTokens
                  && after.refreshTokens == db.refreshTokens[saved.id := saved]
                  && saved.token == value && saved.user == userId && saved.expiryDate == now + durationMs
                  && after == db.(refreshTokens := after.refreshTokens, refreshSequence := db.refreshSequence + 1))
  {
  }

  /** A token issued with a non-negative lifetime is not expired when issued; it is
      expired at a later instant exactly when that instant is past issue time plus
      lifetime. */
  lemma IssuedTokenExpiry(db: Db, userId: UserId, value: string, now: Time, durationMs: int, later: Time)
    requires WellFormed(db) && userId in db.users
    ensures var saved := RefreshStep(db, userId, value, now, durationMs).value.1.token;
            && (durationMs >= 0 ==> !IsTokenExpired(saved, now))
            && (IsTokenExpired(saved, later) <==> later > now + durationMs)
  {
  }

  /** Once expired, a token stays expired. */
  lemma ExpiryIsPermanent(token: RefreshToken, a: Time, b: Time)
    requires a <= b && IsTokenExpired(token, a)
    ensures IsTokenExpired(token, b)
  {
  }

  class RefreshTokenService {
    const repo: Repositories
    /** The configured `jwt.refreshExpirationMs`. */
    const refreshTokenDurationMs: int

    constructor (repo: Repositories, refreshTokenDurationMs: int)
      ensures this.repo == repo && this.refreshTokenDurationMs == refreshTokenDurationMs
    {
      this.repo := repo;
      this.refreshTokenDurationMs := refreshTokenDurationMs;
    }

    /** `value` is the random UUID the source draws. */
    method RefreshToken(userId: UserId, value: string, now: Time) returns (r: Result<RefreshTokenResponse>)
      requires repo.Valid()
      modifies repo
      ensures repo.Valid()
      ensures Realises(RefreshStep(old(repo.State()), userId, value, now, refreshTokenDurationMs),
                       r, old(repo.State()), repo.State())
    {
      var found := repo.FindById(userId);
      if found.None? {
        return Failure(NoSuchElement);
      }
      var saved := repo.SaveRefreshToken(value, now + refreshTokenDurationMs, userId);
      return Success(RefreshTokenResponse(TOKEN_REFRESHED, saved));
    }
  }
}
