/** The three stores the services share: accounts keyed by id (with lookup by
    e-mail), confirmation tokens keyed by token value, and refresh tokens keyed
    by id; ids come from sequences. */
module Store {
  import opened Common
  import opened Models
  import opened ConfirmationTokens

  /** What every account lookup by id throws when the id is unknown. */
  const USER_NOT_FOUND: Error := ResourceNotFound("User not found")

  /** The contents of all stores at one instant. */
  datatype Db = Db(
    users: map<UserId, User>,
    tokens: map<string, TokenRow>,
    refreshTokens: map<int, RefreshToken>,
    userSequence: int,
    tokenSequence: int,
    refreshSequence: int)

  /** What the stores always satisfy: ids lie below their sequences, every token
      is keyed by its own value, was persisted, belongs to an existing account,
      lives exactly the standard lifetime and, once consumed, was consumed within
      that lifetime; every refresh token is keyed by its id and belongs to an
      existing account. */
  ghost predicate WellFormed(db: Db)
  {
    && db.userSequence >= 1 && db.tokenSequence >= 1 && db.refreshSequence >= 1
    && (forall id :: id in db.users ==> 1 <= id < db.userSequence)
    && (forall v :: v in db.tokens ==> RowFits(db, v, db.tokens[v]))
    && (forall k :: k in db.refreshTokens ==> RefreshFits(db, k, db.refreshTokens[k]))
  }

  ghost predicate RowFits(db: Db, v: string, row: TokenRow)
  {
    && row.token == v
    && row.id.Some? && 1 <= row.id.value < db.tokenSequence
    && row.user in db.users
    && row.expiresAt == row.localDateTime + CONFIRMATION_TTL
    && (row.confirmedAt.Some? ==> !IsBefore(row.expiresAt, row.confirmedAt.value))
  }

  ghost predicate RefreshFits(db: Db, k: int, t: RefreshToken)
  {
    t.id == k && 1 <= k < db.refreshSequence && t.user in db.users
  }

  const EMPTY: Db := Db(map[], map[], map[], 1, 1, 1)

  predicate EmailTaken(users: map<UserId, User>, email: string)
  {
    exists id :: id in users && users[id].email == email
  }

  /** The account `findByEmail` yields. Accounts may share an e-mail once a profile
      update has copied one, so the lookup settles on the smallest such id. */
  function EmailOwner(users: map<UserId, User>, email: string): (r: Option<UserId>)
    ensures r.None? <==> !EmailTaken(users, email)
    ensures r.Some? ==> r.value in users && users[r.value].email == email
    ensures r.Some? ==> forall id :: id in users && users[id].email == email ==> r.value <= id
  {
    var matches := set id | id in users && users[id].email == email;
    assert forall id :: id in users && users[id].email == email ==> id in matches;
    if EmailTaken(users, email) then Some(Least(matches)) else None
  }

  /** The stores after saving account `u` under the next id of the sequence. */
  function AddUser(db: Db, u: User): Db
  {
    db.(users := db.users[db.userSequence := u], userSequence := db.userSequence + 1)
  }

  /** The stores after persisting a new token with value `value` for account
      `owner`: unconsumed, issued at `now`, living the standard lifetime, and
      numbered by the next id of `token_sequence`. */
  function AddToken(db: Db, value: string, now: Time, owner: UserId): Db
  {
    var row := TokenRow(Some(db.tokenSequence), value, now, now + CONFIRMATION_TTL, None, owner);
    db.(tokens := db.tokens[value := row], tokenSequence := db.tokenSequence + 1)
  }

  /** The stores after the token with value `value` is consumed at `now`. */
  function ConsumeToken(db: Db, value: string, now: Time): Db
    requires value in db.tokens
  {
    db.(tokens := db.tokens[value := db.tokens[value].(confirmedAt := Some(now))])
  }

  lemma AddTokenWellFormed(db: Db, value: string, now: Time, owner: UserId)
    requires WellFormed(db) && value !in db.tokens && owner in db.users
    ensures WellFormed(AddToken(db, value, now, owner))
  {
  }

  lemma ConsumeTokenWellFormed(db: Db, value: string, now: Time)
    requires WellFormed(db) && value in db.tokens && !IsBefore(db.tokens[value].expiresAt, now)
    ensures WellFormed(ConsumeToken(db, value, now))
  {
  }

  /** A service call returned `r` and moved the stores from `before` to `after`
      exactly as `step` prescribes; a call that throws changes nothing. */
  predicate Realises<T(==)>(step: Result<(Db, T)>, r: Result<T>, before: Db, after: Db)
  {
    match step
    case Success(p) => r == Success(p.1) && after == p.0
    case Failure(e) => r == Failure(e) && after == before
  }

  class Repositories {
    var users: map<UserId, User>
    var tokens: map<string, ConfirmationToken>
    var refreshTokens: map<int, RefreshToken>
    var userSequence: int
    var tokenSequence: int
    var refreshSequence: int
    /** The persisted rows of `confirmation_token`, kept in step with the token
        objects by `Valid`. */
    ghost var rows: map<string, TokenRow>

    ghost function State(): Db
      reads this
    {
      Db(users, rows, refreshTokens, userSequence, tokenSequence, refreshSequence)
    }

    /** Every token object shows exactly its persisted row, and the rows are
        well formed. */
    ghost predicate Valid()
      reads this, tokens.Values
    {
      && rows.Keys == tokens.Keys
      && (forall v :: v in tokens ==> tokens[v].Row() == rows[v])
      && WellFormed(State())
    }

    constructor ()
      ensures Valid() && State() == EMPTY
    {
      users, tokens, refreshTokens := map[], map[], map[];
      userSequence, tokenSequence, refreshSequence := 1, 1, 1;
      rows := map[];
    }

    /** A query: reads only. */
    function FindById(id: UserId): (r: Option<User>)
      reads this
      ensures r.None? <==> id !in users
      ensures r.Some? ==> id in users && r.value == users[id]
    {
      if id in users then Some(users[id]) else None
    }

    /** A query: reads only. */
    function FindByEmail(email: string): (r: Option<UserId>)
      reads this
      ensures r.None? <==> !EmailTaken(users, email)
      ensures r.Some? ==> r.value in users && users[r.value].email == email
      ensures r == EmailOwner(users, email)
    {
      EmailOwner(users, email)
    }

    /** Saves a new account under the next id of the sequence. */
    method InsertUser(u: User) returns (id: UserId)
      requires Valid()
      modifies this
      ensures Valid()
      ensures id == old(userSequence) && id !in old(users)
      ensures tokens == old(tokens)
      ensures State() == AddUser(old(State()), u)
    {
      id := userSequence;
      users := users[id := u];
      userSequence := userSequence + 1;
    }

    /** Saves an existing account. */
    method SaveUser(id: UserId, u: User)
      requires Valid() && id in users
      modifies this
      ensures Valid()
      ensures tokens == old(tokens)
      ensures State() == old(State()).(users := old(users)[id := u])
    {
      users := users[id := u];
    }

    /** A query: reads only. */
    function GetToken(value: string): (r: Option<ConfirmationToken>)
      reads this
      ensures r.None? <==> value !in tokens
      ensures r.Some? ==> value in tokens && r.value == tokens[value]
    {
      if value in tokens then Some(tokens[value]) else None
    }

    /** Persists a new token: it receives the next id of `token_sequence`. */
    method SaveConfirmationToken(ct: ConfirmationToken)
      requires Valid()
      requires ct !in tokens.Values && ct.token !in tokens && ct.id.None?
      requires ct.user in users && ct.expiresAt == ct.localDateTime + CONFIRMATION_TTL
      requires ct.confirmedAt.None?
      modifies this, ct
      ensures Valid()
      ensures ct.id == Some(old(tokenSequence))
      ensures tokens == old(tokens)[old(ct.token) := ct]
      ensures State() == AddToken(old(State()), old(ct.token), old(ct.localDateTime), old(ct.user))
    {
      ghost var target := AddToken(State(), ct.token, ct.localDateTime, ct.user);
      AddTokenWellFormed(State(), ct.token, ct.localDateTime, ct.user);
      ct.id := Some(tokenSequence);
      assert ct.Row() == target.tokens[ct.token];
      rows := target.tokens;
      tokens, tokenSequence := tokens[ct.token := ct], tokenSequence + 1;
      assert State() == target;
    }

    /** Marks the token with value `value` consumed at `now`. */
    method SetConfirmedAt(value: string, now: Time)
      requires Valid() && value in tokens && !IsBefore(tokens[value].expiresAt, now)
      modifies this, tokens[value]
      ensures Valid()
      ensures tokens == old(tokens)
      ensures State() == ConsumeToken(old(State()), value, now)
    {
      var ct := tokens[value];
      ghost var target := ConsumeToken(State(), value, now);
      ConsumeTokenWellFormed(State(), value, now);
      assert forall v :: v in tokens && v != value ==> tokens[v] != ct by {
        forall v | v in tokens && v != value
          ensures tokens[v] != ct
        {
          assert rows[v].token == v && rows[value].token == value;
        }
      }
      ct.confirmedAt := Some(now);
      assert ct.Row() == target.tokens[value];
      rows := target.tokens;
      assert State() == target;
    }

    /** Persists a new refresh token under the next id of its sequence. */
    method SaveRefreshToken(value: string, expiryDate: Time, user: UserId) returns (saved: RefreshToken)
      requires Valid() && user in users
      modifies this
      ensures Valid()
      ensures tokens == old(tokens)
      ensures saved == RefreshToken(old(refreshSequence), value, expiryDate, user)
      ensures State() == old(State()).(
                refreshTokens := old(refreshTokens)[saved.id := saved],
                refreshSequence := saved.id + 1)
    {
      saved := RefreshToken(refreshSequence, value, expiryDate, user);
      refreshTokens := refreshTokens[saved.id := saved];
      refreshSequence := refreshSequence + 1;
    }
  }
}
