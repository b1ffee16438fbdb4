/**
 * The in-memory authentication store (a zustand store): the signed-in user and
 * the `isAuthenticated` flag, changed only by `setMemoryUser` and
 * `clearMemoryUser`.
 */
module AuthStore {
  import opened Wrappers

  /** The signed-in identity: display name and, when present, the bearer token. */
  datatype User = User(name: string, token: Option<string>)

  /** A snapshot of the store's two data fields. */
  datatype AuthState = AuthState(user: Option<User>, isAuthenticated: bool)

  /** The store's consistency rule: authenticated exactly when a user is held. */
  predicate Consistent(s: AuthState) {
    s.isAuthenticated <==> s.user.Some?
  }

  /** The state the store is created with. */
  function Initial(): (s: AuthState)
    ensures s.user == None && !s.isAuthenticated
    ensures Consistent(s)
  {
    AuthState(None, false)
  }

  /** `set({ user, isAuthenticated: true })`: the new user replaces any previous one outright. */
  function SetUser(s: AuthState, u: User): (r: AuthState)
    ensures r.user == Some(u) && r.isAuthenticated
    ensures Consistent(r)
  {
    AuthState(Some(u), true)
  }

  /** `set({ user: null, isAuthenticated: false })`. */
  function Clear(s: AuthState): (r: AuthState)
    ensures r == Initial()
    ensures Consistent(r)
  {
    AuthState(None, false)
  }

  /** Clearing twice is the same as clearing once. */
  lemma ClearIdempotent(s: AuthState)
    ensures Clear(Clear(s)) == Clear(s)
  {
  }

  /** Signing a user in and then clearing returns the store to its initial state. */
  lemma SetThenClearIsInitial(s: AuthState, u: User)
    ensures Clear(SetUser(s, u)) == Initial()
  {
  }

  /** The last `setMemoryUser` wins: nothing of an earlier user survives. */
  lemma SetUserReplaces(s: AuthState, u: User, v: User)
    ensures SetUser(SetUser(s, u), v) == SetUser(s, v)
  {
  }

  /** Every state reachable by the two operations is consistent. */
  lemma ConsistentAfterAnySequence(ops: seq<Option<User>>)
    ensures Consistent(Run(Initial(), ops))
  {
  }

  /** Applies `setMemoryUser(u)` for `Some(u)` and `clearMemoryUser()` for `None`, in order. */
  function Run(s: AuthState, ops: seq<Option<User>>): (r: AuthState)
    requires Consistent(s)
    ensures Consistent(r)
    ensures ops != [] ==> r.user == ops[|ops| - 1]
    decreases |ops|
  {
    if ops == [] then s
    else
      var next := match ops[0] case Some(u) => SetUser(s, u) case None => Clear(s);
      Run(next, ops[1..])
  }

  /** The store object. Its `persist` wrapper is not modelled. */
  class Store {
    var user: Option<User>
    var isAuthenticated: bool

    function State(): AuthState
      reads this
    {
      AuthState(user, isAuthenticated)
    }

    ghost predicate Valid()
      reads this
    {
      Consistent(State())
    }

    constructor ()
      ensures State() == Initial()
      ensures Valid()
    {
      user := None;
      isAuthenticated := false;
    }

    method SetMemoryUser(u: User)
      modifies this
      ensures State() == SetUser(old(State()), u)
      ensures Valid()
    {
      user, isAuthenticated := Some(u), true;
    }

    method ClearMemoryUser()
      modifies this
      ensures State() == Clear(old(State()))
      ensures Valid()
    {
      user, isAuthenticated := None, false;
    }
  }
}
