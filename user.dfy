/**
 * Registration tokens: short-lived credentials for confirming an account
 * through an external provider. Times are whole seconds since the epoch.
 */
module User {
  import opened Wrappers

  /** `new DateTime('-1 day')`, in seconds. */
  const OneDay: int := 86400

  /** The characters `str_random` draws from. */
  predicate IsRandomChar(c: char)
  {
    'a' <= c <= 'z' || 'A' <= c <= 'Z' || '0' <= c <= '9'
  }

  /** A value `str_random(40)` can return. */
  predicate IsRandomId(s: string)
  {
    |s| == 40 && forall i :: 0 <= i < |s| ==> IsRandomChar(s[i])
  }

  /** A stored token: a row of the `auth_tokens` table. */
  datatype TokenRow = TokenRow(
    id: string,
    provider: string,
    identifier: string,
    userAttributes: map<string, string>,
    payload: map<string, string>,
    createdAt: int)

  /** InvalidConfirmationTokenException. */
  datatype InvalidConfirmationToken = InvalidConfirmationToken

  class RegistrationToken {
    var id: string
    var provider: string
    var identifier: string
    var userAttributes: map<string, string>
    var payload: map<string, string>
    var createdAt: int

    /** A new, empty model. */
    constructor ()
      ensures id == "" && provider == "" && identifier == ""
      ensures userAttributes == map[] && payload == map[] && createdAt == 0
    {
      id, provider, identifier := "", "", "";
      userAttributes, payload := map[], map[];
      createdAt := 0;
    }

    /** The row this model would be saved as. */
    function Row(): TokenRow
      reads this
    {
      TokenRow(id, provider, identifier, userAttributes, payload, createdAt)
    }

    /**
     * `generate`: a fresh token carrying the given inputs unchanged, the
     * random id `str_random(40)` returned, and the current time `now`.
     */
    static method Generate(provider: string, identifier: string, attributes: map<string, string>,
                           payload: map<string, string>, randomId: string, now: int)
      returns (token: RegistrationToken)
      requires IsRandomId(randomId)
      ensures fresh(token)
      ensures token.Row() == TokenRow(randomId, provider, identifier, attributes, payload, now)
      ensures IsRandomId(token.id) && |token.id| == 40
    {
      token := new RegistrationToken();
      token.id := randomId;
      token.provider := provider;
      token.identifier := identifier;
      token.userAttributes := attributes;
      token.payload := payload;
      token.createdAt := now;
    }
  }

  /** A token created at `createdAt` is rejected at `now`: strictly older than one day. */
  function Expired(createdAt: int, now: int): (r: bool)
    ensures r <==> now - createdAt > OneDay
    ensures now - createdAt == OneDay ==> !r
  {
    createdAt < now - OneDay
  }

  /**
   * `scopeValidOrFail`: the token stored under `id`, unless there is none
   * or it has expired.
   */
  function ValidOrFail(store: map<string, TokenRow>, id: string, now: int): (r: Result<TokenRow, InvalidConfirmationToken>)
    ensures r.Success? <==> id in store && now - store[id].createdAt <= OneDay
    ensures r.Success? ==> r.value == store[id]
    ensures id !in store ==> r == Failure(InvalidConfirmationToken)
  {
    if id !in store || Expired(store[id].createdAt, now) then Failure(InvalidConfirmationToken)
    else Success(store[id])
  }

  /** At exactly one day old a token is still accepted; one second later it is not. */
  lemma ExpiryBoundary(store: map<string, TokenRow>, id: string)
    requires id in store
    ensures ValidOrFail(store, id, store[id].createdAt + OneDay).Success?
    ensures ValidOrFail(store, id, store[id].createdAt + OneDay + 1).Failure?
  {
  }

  /** Once rejected for age, a token stays rejected at every later time. */
  lemma ExpiryIsPermanent(store: map<string, TokenRow>, id: string, now: int, later: int)
    requires ValidOrFail(store, id, now).Failure?
    requires now <= later
    ensures ValidOrFail(store, id, later).Failure?
  {
  }

  /**
   * A token generated at `created` and stored under its id is accepted at
   * `now` exactly when `now` is no more than one day after `created`
   * (a clock set back before `created` also accepts it).
   */
  lemma GeneratedTokenLifetime(store: map<string, TokenRow>, row: TokenRow, now: int)
    ensures ValidOrFail(store[row.id := row], row.id, now) ==
      if now <= row.createdAt + OneDay then Success(row) else Failure(InvalidConfirmationToken)
  {
  }
}
