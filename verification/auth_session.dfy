/** The auth slice: who is signed in, with which token, and whether the stored session has
    been looked at yet. Local storage and JSON parsing are inputs: the stored strings, and
    a parse function that yields None where `JSON.parse` throws. */
module AuthSession {
  import opened Seqs

  /** A user profile as the server sends it: field name to value. */
  type Profile = map<string, string>

  const AccessTokenField: string := "accessToken"
  const RoleField: string := "role"
  const IdField: string := "_id"

  /** JavaScript truthiness of an optional string: present and not empty. */
  predicate Truthy(o: Option<string>)
  {
    o.Some? && o.value != ""
  }

  /** `user?.role`, absent when there is no user or no role field. */
  function RoleOfProfile(user: Option<Profile>): Option<string>
  {
    if user.Some? && RoleField in user.value then Some(user.value[RoleField]) else None
  }

  /** `user?._id` */
  function IdOfProfile(user: Option<Profile>): Option<string>
  {
    if user.Some? && IdField in user.value then Some(user.value[IdField]) else None
  }

  datatype AuthState = AuthState(
    user: Option<Profile>,
    token: Option<string>,
    loading: bool,
    error: Option<string>,
    initialized: bool)

  /** The actions the auth reducer handles. Login and register share their three cases,
      so they appear once as the sign-in thunk. */
  datatype Event =
    | Logout
    | SetUser(payload: Option<Profile>)
    | ClearError
    | InitPending
    | InitFulfilled(storedToken: Option<string>, storedUser: Option<Profile>)
    | InitRejected
    | SignInPending
    | SignInFulfilled(newToken: Option<string>, profile: Profile)
    | SignInRejected(message: string)
  {
    /** A fulfilled or rejected case of one of the three thunks. */
    predicate Settles()
    {
      InitFulfilled? || InitRejected? || SignInFulfilled? || SignInRejected?
    }
  }

  /** The auth reducer: the state after one action. */
  function Apply(s: AuthState, e: Event): (r: AuthState)
    ensures e.Settles() ==> !r.loading && r.initialized
    ensures e.Logout? ==> r.user == None && r.token == None && r.initialized
    ensures e.Logout? || e.SetUser? ==> r.loading == s.loading && r.error == s.error
    ensures e.SetUser? ==> r.user == e.payload && r.token == s.token && r.initialized
    ensures e.InitFulfilled? ==> r.token == e.storedToken && r.user == e.storedUser
    ensures e.ClearError? ==> r == s.(error := None)
    ensures e.InitPending? ==> r == s.(loading := true)
    ensures e.SignInPending? ==> r.loading && r.error == None
    ensures e.SignInFulfilled? ==> r.token == e.newToken && r.user == Some(e.profile) && r.error == None
    ensures e.SignInRejected? ==> r.token == s.token && r.user == s.user && r.error == Some(e.message)
    ensures e.InitRejected? ==> r.token == None && r.user == None && r.error == s.error
    ensures !e.Settles() && !e.Logout? && !e.SetUser? ==> r.initialized == s.initialized
  {
    match e
    case Logout => s.(user := None, token := None, initialized := true)
    case SetUser(p) => s.(user := p, initialized := true)
    case ClearError => s.(error := None)
    case InitPending => s.(loading := true)
    case InitFulfilled(t, u) => s.(loading := false, token := t, user := u, initialized := true)
    case InitRejected => s.(loading := false, token := None, user := None, initialized := true)
    case SignInPending => s.(loading := true, error := None)
    case SignInFulfilled(t, u) =>
      s.(loading := false, token := t, user := Some(u), initialized := true, error := None)
    case SignInRejected(m) => s.(loading := false, error := Some(m), initialized := true)
  }

  /** Once a session is initialized, no action un-initializes it. */
  lemma {:induction false} InitializedIsStable(s: AuthState, events: seq<Event>)
    requires s.initialized
    ensures ApplyAll(s, events).initialized
    decreases |events|
  {
    if events != [] {
      InitializedIsStable(Apply(s, events[0]), events[1..]);
    }
  }

  /** The state after a sequence of actions. */
  function ApplyAll(s: AuthState, events: seq<Event>): AuthState
    decreases |events|
  {
    if events == [] then s else ApplyAll(Apply(s, events[0]), events[1..])
  }

  /** The body of `initializeAuth`: with a stored token and a stored user string (both
      non-empty) it parses the user, and rejects when parsing throws; otherwise it
      resolves with neither. */
  function InitializeAuth(storedToken: Option<string>, storedUser: Option<string>,
                          parse: string -> Option<Profile>): (e: Event)
    ensures e.InitFulfilled? || e.InitRejected?
    ensures e.InitRejected? <==> Truthy(storedToken) && Truthy(storedUser) && parse(storedUser.value).None?
    ensures e.InitFulfilled? ==> (e.storedToken.Some? <==> e.storedUser.Some?)
    ensures e.InitFulfilled? && e.storedToken.Some? ==>
      storedToken == e.storedToken && Truthy(storedUser) && parse(storedUser.value) == e.storedUser
  {
    if Truthy(storedToken) && Truthy(storedUser) then
      match parse(storedUser.value)
      case Some(u) => InitFulfilled(storedToken, Some(u))
      case None => InitRejected
    else InitFulfilled(None, None)
  }

  /** After `initializeAuth` settles, the session holds a token exactly when it holds a user. */
  lemma InitializeTokenIffUser(s: AuthState, storedToken: Option<string>, storedUser: Option<string>,
                               parse: string -> Option<Profile>)
    ensures var r := Apply(s, InitializeAuth(storedToken, storedUser, parse));
      (r.token.Some? <==> r.user.Some?) && !r.loading && r.initialized
  {
  }

  /** Which of the two credential thunks ran; they differ only in the fallback message. */
  datatype CredentialThunk = Login | Register

  /** What the server answered: the response's `data.data` record, or a failure with an
      optional server message. */
  datatype Response = Answered(data: map<string, string>) | Failed(serverMessage: Option<string>)

  /** `error.response?.data?.message || fallback` */
  function FailureMessage(t: CredentialThunk, serverMessage: Option<string>): (m: string)
    ensures Truthy(serverMessage) ==> m == serverMessage.value
    ensures !Truthy(serverMessage) ==> m == (if t == Login then "Login failed" else "Registration failed")
  {
    if Truthy(serverMessage) then serverMessage.value
    else if t == Login then "Login failed" else "Registration failed"
  }

  /** The bodies of `loginUser` and `registerUser`: `const { accessToken, ...userData } = data`,
      resolving with `{ token: accessToken, user: userData }`. */
  function SignInOutcome(t: CredentialThunk, resp: Response): (e: Event)
    ensures resp.Answered? ==> e.SignInFulfilled?
    ensures resp.Answered? ==> AccessTokenField !in e.profile
    ensures resp.Answered? ==> e.profile.Keys == resp.data.Keys - {AccessTokenField}
    ensures resp.Answered? ==> forall k :: k in e.profile ==> e.profile[k] == resp.data[k]
    ensures resp.Answered? ==> (e.newToken.Some? <==> AccessTokenField in resp.data)
    ensures resp.Failed? ==> e == SignInRejected(FailureMessage(t, resp.serverMessage))
  {
    match resp
    case Answered(data) =>
      var token := if AccessTokenField in data then Some(data[AccessTokenField]) else None;
      SignInFulfilled(token, data - {AccessTokenField})
    case Failed(m) => SignInRejected(FailureMessage(t, m))
  }

  /** Splitting off the token loses nothing: putting it back yields the server's record. */
  lemma SignInSplitRoundTrip(t: CredentialThunk, data: map<string, string>)
    ensures var e := SignInOutcome(t, Answered(data));
      (if e.newToken.Some? then e.profile[AccessTokenField := e.newToken.value] else e.profile) == data
  {
    var e := SignInOutcome(t, Answered(data));
    if e.newToken.Some? {
      assert e.profile[AccessTokenField := e.newToken.value].Keys == data.Keys;
    } else {
      assert e.profile.Keys == data.Keys;
    }
  }

  /** `getInitialUser`: the stored user string parsed, or null when missing, empty or unparsable. */
  function InitialUser(storedUser: Option<string>, parse: string -> Option<Profile>): (u: Option<Profile>)
    ensures u.Some? ==> Truthy(storedUser) && parse(storedUser.value) == u
    ensures Truthy(storedUser) ==> u == parse(storedUser.value)
  {
    if Truthy(storedUser) then parse(storedUser.value) else None
  }

  /** The auth slice's state, updated field by field as the reducers do. */
  class Session {
    var user: Option<Profile>
    var token: Option<string>
    var loading: bool
    var error: Option<string>
    var initialized: bool

    function State(): AuthState
      reads this
    {
      AuthState(user, token, loading, error, initialized)
    }

    /** `initialState`: whatever local storage holds, not yet initialized. */
    constructor (storedToken: Option<string>, storedUser: Option<string>, parse: string -> Option<Profile>)
      ensures State() == AuthState(InitialUser(storedUser, parse), storedToken, false, None, false)
    {
      user := InitialUser(storedUser, parse);
      token := storedToken;
      loading := false;
      error := None;
      initialized := false;
    }

    method Logout()
      modifies this
      ensures State() == Apply(old(State()), Event.Logout)
    {
      user := None;
      token := None;
      initialized := true;
    }

    method SetUser(payload: Option<Profile>)
      modifies this
      ensures State() == Apply(old(State()), Event.SetUser(payload))
    {
      user := payload;
      initialized := true;
    }

    method ClearError()
      modifies this
      ensures State() == Apply(old(State()), Event.ClearError)
    {
      error := None;
    }

    method InitializePending()
      modifies this
      ensures State() == Apply(old(State()), InitPending)
    {
      loading := true;
    }

    method InitializeFulfilled(storedToken: Option<string>, storedUser: Option<Profile>)
      modifies this
      ensures State() == Apply(old(State()), InitFulfilled(storedToken, storedUser))
    {
      loading := false;
      token := storedToken;
      user := storedUser;
      initialized := true;
    }

    method InitializeRejected()
      modifies this
      ensures State() == Apply(old(State()), InitRejected)
    {
      loading := false;
      token := None;
      user := None;
      initialized := true;
    }

    /** The pending case of `loginUser` and of `registerUser`. */
    method SignInPending()
      modifies this
      ensures State() == Apply(old(State()), Event.SignInPending)
    {
      loading := true;
      error := None;
    }

    /** The fulfilled case of `loginUser` and of `registerUser`. */
    method SignInFulfilled(newToken: Option<string>, profile: Profile)
      modifies this
      ensures State() == Apply(old(State()), Event.SignInFulfilled(newToken, profile))
    {
      loading := false;
      token := newToken;
      user := Some(profile);
      initialized := true;
      error := None;
    }

    /** The rejected case of `loginUser` and of `registerUser`. */
    method SignInRejected(message: string)
      modifies this
      ensures State() == Apply(old(State()), Event.SignInRejected(message))
    {
      loading := false;
      error := Some(message);
      initialized := true;
    }
  }
}
