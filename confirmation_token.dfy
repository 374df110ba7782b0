/** The e-mail confirmation / password reset token: a mutable entity whose
    `confirmedAt` is set after construction. */
module ConfirmationTokens {
  import opened Common
  import opened Models

  /** How long a token lives: `plusMinutes(15)`, in milliseconds. */
  const CONFIRMATION_TTL: int := 15 * 60 * 1000

  /** The persisted state of one token. */
  datatype TokenRow = TokenRow(
    id: Option<int>,
    token: string,
    localDateTime: Time,
    expiresAt: Time,
    confirmedAt: Option<Time>,
    user: UserId)
  {
    /** Neither consumed nor past its expiry at `now`: the test a token must pass
        to confirm an e-mail or to reset a password. */
    predicate Usable(now: Time)
    {
      confirmedAt.None? && !IsBefore(expiresAt, now)
    }
  }

  class ConfirmationToken {
    /** Null until the repository persists the token. */
    var id: Option<int>
    var token: string
    var localDateTime: Time
    var expiresAt: Time
    /** Null until the token is consumed. */
    var confirmedAt: Option<Time>
    var user: UserId

    /** The four-argument constructor; the required columns (`token`,
        `localDateTime`, `expiresAt`, `user`) have types without null, while
        `confirmedAt` and `id` are left null. */
    constructor (token: string, localDateTime: Time, expiresAt: Time, user: UserId)
      ensures this.token == token && this.localDateTime == localDateTime
      ensures this.expiresAt == expiresAt && this.user == user
      ensures confirmedAt == None && id == None
    {
      this.token := token;
      this.localDateTime := localDateTime;
      this.expiresAt := expiresAt;
      this.user := user;
      this.confirmedAt := None;
      this.id := None;
    }

    function Row(): TokenRow
      reads this
    {
      TokenRow(id, token, localDateTime, expiresAt, confirmedAt, user)
    }
  }

  /** A token minted at `issuedAt` with the standard lifetime is usable exactly up
      to and including its expiry instant, and never after. */
  lemma FreshTokenUsableUntilExpiry(row: TokenRow, issuedAt: Time, now: Time)
    requires row.confirmedAt.None? && row.localDateTime == issuedAt
    requires row.expiresAt == issuedAt + CONFIRMATION_TTL
    ensures row.Usable(now) <==> now <= issuedAt + CONFIRMATION_TTL
  {
  }
}
