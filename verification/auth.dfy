/** The session provider: the signed-in user and the bearer token held in
    memory, and the copy of the token persisted under the browser storage
    key "token". `login` and `logout` are its only transitions. */
module Auth {
  import opened Domain

  /** `stored` is the value under the storage key, `None` when the key is
      absent. */
  datatype SessionState = SessionState(user: Option<User>, token: Option<string>, stored: Option<string>)

  datatype SessionEvent = LogIn(user: User, jwt: string) | LogOut

  /** The state the provider mounts with: no user, and the persisted token
      read back with `getItem("token") || null`, so an empty stored string
      reads as no token. */
  function Initial(persisted: Option<string>): (s: SessionState)
    ensures s.user.None? && s.stored == persisted
    ensures s.token == (if persisted == Some("") then None else persisted)
  {
    SessionState(None, if persisted.Some? && persisted.value != "" then persisted else None, persisted)
  }

  function Step(s: SessionState, e: SessionEvent): SessionState {
    match e
    case LogIn(u, jwt) => SessionState(Some(u), Some(jwt), Some(jwt))
    case LogOut => SessionState(None, None, None)
  }

  /** The state after the events, in order. */
  function Run(s: SessionState, events: seq<SessionEvent>): SessionState
    decreases |events|
  {
    if events == [] then s else Run(Step(s, events[0]), events[1..])
  }

  /** The in-memory token is the persisted one. */
  predicate Synced(s: SessionState) {
    s.token == s.stored
  }

  /** Never partially authenticated: user and token are both present or
      both absent. */
  predicate Consistent(s: SessionState) {
    s.user.None? <==> s.token.None?
  }

  /** After any non-empty sequence of logins and logouts the in-memory token
      equals the persisted one, and user and token agree; the last event
      alone decides the state. */
  lemma {:induction false} RunSyncedAndConsistent(s: SessionState, events: seq<SessionEvent>)
    requires events != []
    ensures Run(s, events) == Step(s, events[|events| - 1])
    ensures Synced(Run(s, events)) && Consistent(Run(s, events))
    decreases |events|
  {
    if |events| > 1 {
      RunSyncedAndConsistent(Step(s, events[0]), events[1..]);
    }
  }

  /** Only a mount with a non-empty persisted token starts with a token and
      no user, and only a mount with an empty persisted string starts with
      a token that differs from the persisted one. */
  lemma InitialAgreement(persisted: Option<string>)
    ensures Consistent(Initial(persisted)) <==> persisted.None? || persisted == Some("")
    ensures Synced(Initial(persisted)) <==> persisted != Some("")
  {
  }

  lemma LogoutIdempotent(s: SessionState)
    ensures Run(s, [LogOut, LogOut]) == Run(s, [LogOut])
  {
  }

  class Session {
    var user: Option<User>
    var token: Option<string>
    var stored: Option<string>

    function State(): SessionState
      reads this
    {
      SessionState(user, token, stored)
    }

    constructor (persisted: Option<string>)
      ensures State() == Initial(persisted)
    {
      user := None;
      token := if persisted.Some? && persisted.value != "" then persisted else None;
      stored := persisted;
    }

    /** `login(user, jwt)`: sets the user, the token, and the persisted token. */
    method Login(u: User, jwt: string)
      modifies this
      ensures State() == Step(old(State()), LogIn(u, jwt))
      ensures user == Some(u) && token == Some(jwt) && stored == Some(jwt)
    {
      user := Some(u);
      token := Some(jwt);
      stored := Some(jwt);
    }

    /** `logout()`: clears the user and the token and removes the persisted one. */
    method Logout()
      modifies this
      ensures State() == Step(old(State()), LogOut)
      ensures user.None? && token.None? && stored.None?
    {
      user := None;
      token := None;
      stored := None;
    }
  }
}
