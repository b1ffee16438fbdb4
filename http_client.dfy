/**
 * The shared axios instance as the client uses it: the request interceptor that
 * injects the bearer credential, the instance defaults the router writes, the
 * registry of response interceptors, and the shape of a rejected request.
 */
module HttpClient {
  import opened Wrappers
  import opened Strings
  import AuthStore

  const AuthorizationHeader := "Authorization"
  const BearerPrefix := "Bearer "

  /** `Bearer ${token}`. */
  function BearerValue(token: string): (h: string)
    ensures |h| == |BearerPrefix| + |token|
    ensures StartsWith(h, BearerPrefix) && h[|BearerPrefix|..] == token
  {
    BearerPrefix + token
  }

  /** The token carried by an Authorization value, when it has the bearer prefix. */
  function BearerToken(h: string): (t: Option<string>)
    ensures t.Some? <==> StartsWith(h, BearerPrefix)
    ensures t.Some? ==> h == BearerPrefix + t.value
  {
    if StartsWith(h, BearerPrefix) then Some(h[|BearerPrefix|..]) else None
  }

  /** Stripping the seven-character prefix recovers the token exactly. */
  lemma BearerRoundTrip(token: string)
    ensures BearerToken(BearerValue(token)) == Some(token)
  {
  }

  /** Distinct tokens give distinct header values. */
  lemma BearerValueInjective(a: string, b: string)
    requires BearerValue(a) == BearerValue(b)
    ensures a == b
  {
    BearerRoundTrip(a);
    BearerRoundTrip(b);
  }

  /** `useAuthStore.getState().user?.token`. */
  function StoreToken(user: Option<AuthStore.User>): (t: Option<string>)
    ensures user.None? ==> t.None?
    ensures user.Some? ==> t == user.value.token
  {
    match user
    case None => None
    case Some(u) => u.token
  }

  /**
   * The headers the interceptor leaves: a truthy store token sets Authorization
   * to its bearer value; otherwise the headers are returned untouched.
   */
  function WithCredentials(headers: map<string, string>, user: Option<AuthStore.User>): (r: map<string, string>)
    ensures Truthy(StoreToken(user)) ==>
      AuthorizationHeader in r && r[AuthorizationHeader] == BearerValue(StoreToken(user).value)
    ensures !Truthy(StoreToken(user)) ==> r == headers
    ensures forall k :: k != AuthorizationHeader ==> (k in r <==> k in headers)
    ensures forall k :: k != AuthorizationHeader && k in r ==> r[k] == headers[k]
  {
    var token := StoreToken(user);
    if Truthy(token) then headers[AuthorizationHeader := BearerValue(token.value)] else headers
  }

  /** Once the store is cleared, the interceptor adds nothing to the next request. */
  lemma ClearedStoreAddsNoCredential(headers: map<string, string>, s: AuthStore.AuthState)
    ensures WithCredentials(headers, AuthStore.Clear(s).user) == headers
  {
  }

  /** The interceptor recovers the signed-in user's token from the header it writes. */
  lemma SignedInTokenRecovered(headers: map<string, string>, s: AuthStore.AuthState, u: AuthStore.User)
    requires Truthy(u.token)
    ensures var h := WithCredentials(headers, AuthStore.SetUser(s, u).user);
      AuthorizationHeader in h && BearerToken(h[AuthorizationHeader]) == u.token
  {
    BearerRoundTrip(u.token.value);
  }

  /** An outgoing request's configuration, which interceptors change in place. */
  class RequestConfig {
    var url: string
    var headers: map<string, string>

    constructor (url: string, headers: map<string, string>)
      ensures this.url == url && this.headers == headers
    {
      this.url := url;
      this.headers := headers;
    }
  }

  /**
   * The first request interceptor: reads the store at call time, writes the
   * Authorization entry when the token is truthy, and returns the same config.
   */
  method AuthorizationInterceptor(store: AuthStore.Store, config: RequestConfig) returns (r: RequestConfig)
    modifies config
    ensures r == config
    ensures config.headers == WithCredentials(old(config.headers), store.user)
    ensures config.url == old(config.url)
  {
    var token := StoreToken(store.user);
    if Truthy(token) {
      config.headers := config.headers[AuthorizationHeader := BearerValue(token.value)];
    }
    r := config;
  }

  /** The response part of a rejected request: its status and the `error` field of its body. */
  datatype ErrorResponse = ErrorResponse(status: int, bodyError: Option<string>)

  /** A rejected request: an axios error (with or without a response), or anything else thrown. */
  datatype HttpError = AxiosError(response: Option<ErrorResponse>) | OtherError(message: string)

  /** The axios instance's mutable parts: the common Authorization default and the response interceptors. */
  class Api {
    var defaultAuthorization: Option<string>
    var responseInterceptors: set<nat>
    var nextInterceptorId: nat

    ghost predicate Valid()
      reads this
    {
      forall id :: id in responseInterceptors ==> id < nextInterceptorId
    }

    constructor ()
      ensures defaultAuthorization == None && responseInterceptors == {}
      ensures Valid()
    {
      defaultAuthorization := None;
      responseInterceptors := {};
      nextInterceptorId := 0;
    }

    /** `api.defaults.headers.common.Authorization = value`. */
    method SetDefaultAuthorization(value: string)
      modifies this`defaultAuthorization
      ensures defaultAuthorization == Some(value)
    {
      defaultAuthorization := Some(value);
    }

    /** `api.interceptors.response.use(...)`: registers a handler under a fresh id. */
    method UseResponseInterceptor() returns (id: nat)
      requires Valid()
      modifies this`responseInterceptors, this`nextInterceptorId
      ensures Valid()
      ensures id !in old(responseInterceptors)
      ensures responseInterceptors == old(responseInterceptors) + {id}
    {
      id := nextInterceptorId;
      responseInterceptors := responseInterceptors + {id};
      nextInterceptorId := nextInterceptorId + 1;
    }

    /** `api.interceptors.response.eject(id)`. */
    method EjectResponseInterceptor(id: nat)
      requires Valid()
      modifies this`responseInterceptors
      ensures Valid()
      ensures responseInterceptors == old(responseInterceptors) - {id}
    {
      responseInterceptors := responseInterceptors - {id};
    }
  }
}
