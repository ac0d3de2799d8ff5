/** The client session of `AuthContext.js`: the signed-in user, the loading
    and error flags and the `token` slot of local storage, changed step by step
    by the init effect, signup, login, logout and the Google token hand-off.
    What the auth service answers is an input to each operation. */
module AuthContext {
  import opened Wrappers
  import opened Text
  import opened AuthController

  /** The service's answer: the user's data, or a rejection carrying the
      server's `message`, if the reply had one. */
  datatype Answer = Answered(data: UserData) | Rejected(message: Option<string>)

  /** The body the signup request posts. */
  datatype SignupRequest = SignupRequest(username: string, email: string, password: string, role: Option<string>)

  /** `if (token)`: a stored token counts when it is present and not empty. */
  predicate Truthy(t: Option<Token>) {
    t.Some? && t.value != Unverifiable("")
  }

  const RegisterFallback := "Failed to register"
  const LoginFallback := "Failed to login"
  const AuthenticateFallback := "Failed to authenticate"

  /** The context's `signup(username, email, password)` has no role parameter:
      the request it makes carries none. */
  function ClientSignupRequest(username: string, email: string, password: string): (r: SignupRequest)
    ensures r.role.None?
    ensures r.username == username && r.email == email && r.password == password
  {
    SignupRequest(username, email, password, None)
  }

  /** Whatever role a visitor picks, an account created through the client
      gets the user role. */
  lemma ClientSignupIsUserRole(username: string, email: string, password: string)
    ensures CoerceRole(ClientSignupRequest(username, email, password).role) == Http.UserRole
  {
  }

  class Session {
    var currentUser: Option<UserData>
    var loading: bool
    var error: Option<string>
    var storedToken: Option<Token>

    /** `{!loading && children}`. */
    predicate RendersChildren()
      reads this
    {
      !loading
    }

    /** The provider's first render, with what local storage holds. */
    constructor Mount(saved: Option<Token>)
      ensures currentUser.None? && loading && error.None? && storedToken == saved
      ensures !RendersChildren()
    {
      currentUser := None;
      loading := true;
      error := None;
      storedToken := saved;
    }

    /** The init effect. `answer` is the token lookup's outcome; it is not
        consulted when no token is stored. */
    method RunInit(answer: Answer)
      modifies this
      ensures RendersChildren()
      ensures error == old(error)
      ensures !Truthy(old(storedToken)) ==> currentUser == old(currentUser) && storedToken == old(storedToken)
      ensures Truthy(old(storedToken)) && answer.Answered? ==>
        currentUser == Some(answer.data) && storedToken == old(storedToken)
      ensures Truthy(old(storedToken)) && answer.Rejected? ==>
        currentUser == old(currentUser) && storedToken.None?
    {
      if Truthy(storedToken) {
        match answer
        case Answered(data) =>
          currentUser := Some(data);
        case Rejected(_) =>
          storedToken := None;
      }
      loading := false;
    }

    /** `signup` and `login` differ only in the request and the fallback
        message. On success the returned token is stored and the user set;
        on failure the error is set, the rest is untouched and the error is
        rethrown. */
    method Authenticate(answer: Answer, fallback: string) returns (thrown: bool)
      modifies this
      ensures loading == old(loading)
      ensures thrown <==> answer.Rejected?
      ensures answer.Answered? ==>
        currentUser == Some(answer.data) && storedToken == answer.data.token && error.None?
      ensures answer.Rejected? ==>
        && currentUser == old(currentUser) && storedToken == old(storedToken)
        && error == Some(MessageOr(answer.message, fallback))
    {
      error := None;
      match answer
      case Answered(data) =>
        storedToken := data.token;
        currentUser := Some(data);
        thrown := false;
      case Rejected(message) =>
        error := Some(MessageOr(message, fallback));
        thrown := true;
    }

    /** `signup(username, email, password)`. */
    method Signup(username: string, email: string, password: string, answer: Answer)
      returns (sent: SignupRequest, thrown: bool)
      modifies this
      ensures sent == ClientSignupRequest(username, email, password)
      ensures loading == old(loading)
      ensures thrown <==> answer.Rejected?
      ensures answer.Answered? ==>
        currentUser == Some(answer.data) && storedToken == answer.data.token && error.None?
      ensures answer.Rejected? ==>
        && currentUser == old(currentUser) && storedToken == old(storedToken)
        && error == Some(MessageOr(answer.message, RegisterFallback))
    {
      sent := ClientSignupRequest(username, email, password);
      thrown := Authenticate(answer, RegisterFallback);
    }

    /** `login(email, password)`. */
    method Login(answer: Answer) returns (thrown: bool)
      modifies this
      ensures loading == old(loading)
      ensures thrown <==> answer.Rejected?
      ensures answer.Answered? ==>
        currentUser == Some(answer.data) && storedToken == answer.data.token && error.None?
      ensures answer.Rejected? ==>
        && currentUser == old(currentUser) && storedToken == old(storedToken)
        && error == Some(MessageOr(answer.message, LoginFallback))
    {
      thrown := Authenticate(answer, LoginFallback);
    }

    /** `logout`. */
    method Logout()
      modifies this
      ensures storedToken.None? && currentUser.None?
      ensures loading == old(loading) && error == old(error)
    {
      storedToken := None;
      currentUser := None;
    }

    /** `setAuthToken`, after the Google sign-in: looks the user up with the
        token it is given; it does not write local storage itself. */
    method SetAuthToken(answer: Answer) returns (thrown: bool)
      modifies this
      ensures loading == old(loading) && storedToken == old(storedToken)
      ensures thrown <==> answer.Rejected?
      ensures answer.Answered? ==> currentUser == Some(answer.data) && error.None?
      ensures answer.Rejected? ==>
        currentUser == old(currentUser) && error == Some(MessageOr(answer.message, AuthenticateFallback))
    {
      error := None;
      match answer
      case Answered(data) =>
        currentUser := Some(data);
        thrown := false;
      case Rejected(message) =>
        error := Some(MessageOr(message, AuthenticateFallback));
        thrown := true;
    }
  }
}
