/** The session store shared by every screen: the token, the role and the user id, set together by
    `login` and cleared together by `logout`, and the `useAuth` accessor. */
module Auth {
  import opened Common

  /** The three state cells of the provider. A JavaScript `null` or `undefined` is None. */
  datatype SessionState = SessionState(token: Option<string>, userRole: Option<string>, userId: Option<string>)

  /** The state the provider starts in: all three cells null. */
  const SignedOut := SessionState(None, None, None)

  /** The state `login(newToken, role, id)` leaves behind. */
  function LoggedIn(newToken: Option<string>, role: Option<string>, id: Option<string>): SessionState {
    SessionState(newToken, role, id)
  }

  /** A call on the provider's value. */
  datatype Call = Login(newToken: Option<string>, role: Option<string>, id: Option<string>) | Logout

  /** The provider's state after one call. */
  function Provider(s: SessionState, c: Call): (r: SessionState)
    ensures c.Logout? ==> r == SignedOut
    ensures c.Login? ==> r == LoggedIn(c.newToken, c.role, c.id)
  {
    match c
    case Login(t, role, id) => LoggedIn(t, role, id)
    case Logout => SessionState(None, None, None)
  }

  /** The state after a sequence of calls, from `s`. */
  function Run(s: SessionState, calls: seq<Call>): SessionState
    decreases |calls|
  {
    if calls == [] then s else Run(Provider(s, calls[0]), calls[1..])
  }

  /** The session after any sequence of calls is decided by the last call alone: signed out when it
      is a logout or there was none (starting signed out), and that login's arguments otherwise. */
  lemma {:induction false} LastCallDecides(calls: seq<Call>)
    ensures var s := Run(SignedOut, calls);
            if calls == [] || calls[|calls| - 1].Logout? then s == SignedOut
            else var c := calls[|calls| - 1]; s == LoggedIn(c.newToken, c.role, c.id)
  {
    RunFrom(SignedOut, calls);
  }

  /** A run ends in the state its last call leaves behind. */
  lemma {:induction false} RunFrom(s: SessionState, calls: seq<Call>)
    ensures calls != [] ==> Run(s, calls) == Provider(s, calls[|calls| - 1])
    ensures calls == [] ==> Run(s, calls) == s
    decreases |calls|
  {
    if |calls| > 1 {
      RunFrom(Provider(s, calls[0]), calls[1..]);
      assert calls[1..][|calls[1..]| - 1] == calls[|calls| - 1];
    }
  }

  /** The provider's state cells and the two functions it hands out. */
  class Session {
    var token: Option<string>
    var userRole: Option<string>
    var userId: Option<string>

    function State(): SessionState
      reads this
    {
      SessionState(token, userRole, userId)
    }

    constructor ()
      ensures State() == SignedOut
    {
      token := None;
      userRole := None;
      userId := None;
    }

    /** `login(newToken, role, id)`. */
    method Login(newToken: Option<string>, role: Option<string>, id: Option<string>)
      modifies this
      ensures State() == Provider(old(State()), Call.Login(newToken, role, id))
    {
      token := newToken;
      userRole := role;
      userId := id;
    }

    /** `logout()`. */
    method Logout()
      modifies this
      ensures State() == Provider(old(State()), Call.Logout)
    {
      token := None;
      userRole := None;
      userId := None;
    }
  }

  /** What `useAuth` gives back: the provider's value, or the error it throws. */
  datatype Access = Provided(session: SessionState) | Thrown(message: string)

  const OutsideProviderMessage := "useAuth debe ser usado dentro de un AuthProvider"

  /** `useAuth()`, given the context value (None outside any provider). */
  function UseAuth(context: Option<SessionState>): (r: Access)
    ensures r.Provided? <==> context.Some?
    ensures r.Provided? ==> r.session == context.value
    ensures r.Thrown? ==> r.message == OutsideProviderMessage
  {
    if context.None? then Thrown(OutsideProviderMessage) else Provided(context.value)
  }
}
