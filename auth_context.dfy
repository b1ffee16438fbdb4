/**
 * The older React-context session holder: an in-memory `userToken` kept in
 * step with one durable `localStorage` slot.
 */
module AuthContext {
  import opened Wrappers
  import opened Strings

  /** The durable storage key of the token. */
  const TokenKey := "@recipeez-0.0.1:token"

  /** The thrown message of `useAuth` outside a provider. */
  const OutsideProviderMessage := "useAuth must be used within an AuthContextProvider"

  /**
   * Storage after `updateUserToken(newToken)`: the key holds a truthy token,
   * and is removed for `null` or `""`. No other key is touched.
   */
  function StoredAfterUpdate(storage: map<string, string>, newToken: Option<string>): (r: map<string, string>)
    ensures Truthy(newToken) ==> TokenKey in r && r[TokenKey] == newToken.value
    ensures !Truthy(newToken) ==> TokenKey !in r
    ensures forall k :: k != TokenKey ==> (k in r <==> k in storage)
    ensures forall k :: k != TokenKey && k in r ==> r[k] == storage[k]
  {
    if Truthy(newToken) then storage[TokenKey := newToken.value]
    else storage - {TokenKey}
  }

  /** The token the mount effect leaves in memory: a truthy stored token, else the current one. */
  function TokenAfterMount(storage: map<string, string>, current: Option<string>): (t: Option<string>)
    ensures TokenKey in storage && storage[TokenKey] != "" ==> t == Some(storage[TokenKey])
    ensures !(TokenKey in storage && storage[TokenKey] != "") ==> t == current
  {
    if TokenKey in storage && storage[TokenKey] != "" then Some(storage[TokenKey]) else current
  }

  /** Updating twice with the same argument leaves the same storage as updating once. */
  lemma UpdateIdempotent(storage: map<string, string>, t: Option<string>)
    ensures StoredAfterUpdate(StoredAfterUpdate(storage, t), t) == StoredAfterUpdate(storage, t)
  {
  }

  /** A truthy token written by an update is what the next mount reads back. */
  lemma UpdateThenMountRoundTrip(storage: map<string, string>, t: Option<string>, current: Option<string>)
    requires Truthy(t)
    ensures TokenAfterMount(StoredAfterUpdate(storage, t), current) == t
  {
  }

  /** After an update with `null` or `""`, a mount leaves the in-memory token as it was. */
  lemma ClearedStorageMountsNothing(storage: map<string, string>, t: Option<string>, current: Option<string>)
    requires !Truthy(t)
    ensures TokenAfterMount(StoredAfterUpdate(storage, t), current) == current
  {
  }

  /** The value `useContext(AuthContext)` yields: the `{}` default, or a provider's value. */
  datatype ContextValue = DefaultValue | Provided(userToken: Option<string>)

  /** JavaScript truthiness of an object: every object, `{}` included, is truthy. */
  predicate ObjectTruthy(v: ContextValue) {
    match v
    case DefaultValue => true
    case Provided(_) => true
  }

  /** `useAuth()`: throws when the context value is falsy, which never happens. */
  function UseAuth(v: ContextValue): (r: Result<ContextValue, string>)
    ensures r == Ok(v)
  {
    if !ObjectTruthy(v) then Err(OutsideProviderMessage) else Ok(v)
  }

  /** The provider component's state, with the browser's storage as a field it updates. */
  class Provider {
    var userToken: Option<string>
    var storage: map<string, string>

    /** The first render: the token starts as `null`; storage is whatever the browser holds. */
    constructor (browserStorage: map<string, string>)
      ensures userToken == None
      ensures storage == browserStorage
    {
      userToken := None;
      storage := browserStorage;
    }

    function Value(): ContextValue
      reads this
    {
      Provided(userToken)
    }

    /** `updateUserToken(newToken)`: the state write is skipped when the token is unchanged. */
    method UpdateUserToken(newToken: Option<string>)
      modifies this
      ensures userToken == newToken
      ensures storage == StoredAfterUpdate(old(storage), newToken)
    {
      if userToken != newToken {
        userToken := newToken;
      }
      if Truthy(newToken) {
        storage := storage[TokenKey := newToken.value];
      } else {
        storage := storage - {TokenKey};
      }
    }

    /** The mount effect: a truthy stored token is copied into memory. */
    method LoadStoredToken()
      modifies this
      ensures userToken == TokenAfterMount(old(storage), old(userToken))
      ensures storage == old(storage)
    {
      if TokenKey in storage {
        var token := storage[TokenKey];
        if token != "" {
          userToken := Some(token);
        }
      }
    }
  }
}
