/** `authController.js` over an ordered user store. The token library is the
    pair `Sign`/`Verify` with `Verify(Sign(id)) == Some(id)`; a token that does
    not verify (tampered, expired, not a token at all) is `Unverifiable`. The
    password check compares the given password with the stored one, hashing
    being left to the user model. Store failures are inputs. */
module AuthController {
  import opened Wrappers
  import opened Http

  /** A signed token carries the id it was issued for. */
  datatype Token = Signed(id: UserId) | Unverifiable(raw: string)

  /** `jwt.verify`: the id a token was issued for, if it verifies. */
  function Verify(t: Token): (r: Option<UserId>)
    ensures r.Some? <==> t.Signed?
  {
    match t
    case Signed(id) => Some(id)
    case Unverifiable(_) => None
  }

  /** `generateToken(id)`: a token `Verify` maps back to `id`. */
  function Sign(id: UserId): (r: Token)
    ensures Verify(r) == Some(id)
  {
    Signed(id)
  }

  /** A stored user. Accounts created through Google carry no password. */
  datatype Account = Account(
    id: UserId,
    username: string,
    email: string,
    password: Option<string>,
    role: Role,
    googleId: Option<string>,
    picture: Option<string>)

  /** The body of a successful reply: the user's public fields, with a token
      after signup and login. */
  datatype UserData = UserData(id: UserId, username: string, email: string, role: Role, token: Option<Token>)

  function DataOf(a: Account, token: Option<Token>): UserData {
    UserData(a.id, a.username, a.email, a.role, token)
  }

  const DuplicateMessage := "User already exists with this email or username"
  const SignupErrorMessage := "Server error during signup"
  const InvalidCredentialsMessage := "Invalid credentials"
  const LoginErrorMessage := "Server error during login"
  const UserNotFoundMessage := "User not found"
  const ProfileErrorMessage := "Server error fetching profile"
  const TokenRequiredMessage := "Token is required"
  const InvalidTokenMessage := "Invalid or expired token"

  /** `role === 'admin' ? 'admin' : 'user'`: only the exact string `admin`
      gives the admin role; anything else, or nothing, gives `user`. */
  function CoerceRole(requested: Option<string>): (r: Role)
    ensures r == AdminRole <==> requested == Some("admin")
    ensures r == UserRole <==> requested != Some("admin")
  {
    if requested == Some("admin") then AdminRole else UserRole
  }

  /** The queries the handlers send to `findOne` and `findById`. */
  datatype Query = ByEmailOrUsername(email: string, username: string) | ByEmail(addr: string) | ById(key: UserId) | ByGoogleId(gid: string)

  predicate Matches(a: Account, q: Query) {
    match q
    case ByEmailOrUsername(e, u) => a.email == e || a.username == u
    case ByEmail(e) => a.email == e
    case ById(id) => a.id == id
    case ByGoogleId(g) => a.googleId == Some(g)
  }

  /** `findOne`: the position of the first account, in insertion order, that
      matches the query. */
  function FindFirst(accounts: seq<Account>, q: Query): (r: Option<nat>)
    ensures r.None? <==> forall i :: 0 <= i < |accounts| ==> !Matches(accounts[i], q)
    ensures r.Some? ==> r.value < |accounts| && Matches(accounts[r.value], q)
    ensures r.Some? ==> forall i :: 0 <= i < r.value ==> !Matches(accounts[i], q)
    decreases |accounts|
  {
    if accounts == [] then None
    else if Matches(accounts[0], q) then Some(0)
    else
      match FindFirst(accounts[1..], q)
      case None => None
      case Some(k) => Some(k + 1)
  }

  /** `comparePassword`: an account without a password matches nothing. */
  predicate PasswordMatches(a: Account, given: string) {
    a.password == Some(given)
  }

  /** No two accounts share an id or an email. */
  ghost predicate Distinct(accounts: seq<Account>) {
    forall i, j :: 0 <= i < j < |accounts| ==>
      accounts[i].id != accounts[j].id && accounts[i].email != accounts[j].email
  }

  /** In a store with distinct ids, looking an id up finds the account that
      holds it and no other. */
  lemma {:induction false} FindByIdIsUnique(accounts: seq<Account>, k: nat)
    requires Distinct(accounts) && k < |accounts|
    ensures FindFirst(accounts, ById(accounts[k].id)) == Some(k)
  {
    var r := FindFirst(accounts, ById(accounts[k].id));
    assert Matches(accounts[k], ById(accounts[k].id));
  }

  /** The user store, in insertion order. */
  class UserStore {
    var accounts: seq<Account>

    ghost predicate Valid()
      reads this
    {
      Distinct(accounts)
    }

    constructor ()
      ensures Valid() && accounts == []
    {
      accounts := [];
    }

    /** `findById`. */
    function Find(id: UserId): (r: Option<Account>)
      reads this
      ensures r.Some? <==> exists i :: 0 <= i < |accounts| && accounts[i].id == id
      ensures r.Some? ==> r.value.id == id
    {
      match FindFirst(accounts, ById(id))
      case None => None
      case Some(k) => Some(accounts[k])
    }

    /** `signup`. `newId` is the id the store assigns; `lookupFails` and
        `createFails` say whether the duplicate lookup or the insert throws. */
    method Signup(username: string, email: string, password: string, role: Option<string>,
                  newId: UserId, lookupFails: bool, createFails: bool)
      returns (r: Reply<UserData>)
      requires Valid()
      requires forall i :: 0 <= i < |accounts| ==> accounts[i].id != newId
      modifies this
      ensures Valid()
      ensures var taken := exists i :: 0 <= i < |old(accounts)| && Matches(old(accounts)[i], ByEmailOrUsername(email, username));
        && (lookupFails ==> r == Fail(500, SignupErrorMessage) && accounts == old(accounts))
        && (!lookupFails && taken ==> r == Fail(400, DuplicateMessage) && accounts == old(accounts))
        && (!lookupFails && !taken && createFails ==> r == Fail(500, SignupErrorMessage) && accounts == old(accounts))
        && (!lookupFails && !taken && !createFails ==>
             && r == Ok(201, UserData(newId, username, email, CoerceRole(role), Some(Sign(newId))))
             && accounts == old(accounts) + [Account(newId, username, email, Some(password), CoerceRole(role), None, None)])
    {
      if lookupFails {
        return Fail(500, SignupErrorMessage);
      }
      if FindFirst(accounts, ByEmailOrUsername(email, username)).Some? {
        return Fail(400, DuplicateMessage);
      }
      if createFails {
        return Fail(500, SignupErrorMessage);
      }
      var user := Account(newId, username, email, Some(password), CoerceRole(role), None, None);
      accounts := accounts + [user];
      r := Ok(201, DataOf(user, Some(Sign(user.id))));
    }

    /** `login`: an unknown email and a wrong password get the same reply. */
    method Login(email: string, password: string, lookupFails: bool) returns (r: Reply<UserData>)
      requires Valid()
      ensures lookupFails ==> r == Fail(500, LoginErrorMessage)
      ensures !lookupFails && (forall i :: 0 <= i < |accounts| ==> accounts[i].email != email) ==>
        r == Fail(401, InvalidCredentialsMessage)
      ensures !lookupFails ==> forall i :: 0 <= i < |accounts| && accounts[i].email == email ==>
        (PasswordMatches(accounts[i], password) <==> r.Ok?)
      ensures !lookupFails && r.Fail? ==> r == Fail(401, InvalidCredentialsMessage)
      ensures r.Ok? ==> exists i :: 0 <= i < |accounts| && accounts[i].email == email
                                   && r == Ok(200, DataOf(accounts[i], Some(Sign(accounts[i].id))))
    {
      if lookupFails {
        return Fail(500, LoginErrorMessage);
      }
      var found := FindFirst(accounts, ByEmail(email));
      if found.None? {
        return Fail(401, InvalidCredentialsMessage);
      }
      var user := accounts[found.value];
      if !PasswordMatches(user, password) {
        return Fail(401, InvalidCredentialsMessage);
      }
      r := Ok(200, DataOf(user, Some(Sign(user.id))));
    }

    /** `getUserProfile` for the authenticated caller. */
    method GetUserProfile(caller: Caller, lookupFails: bool) returns (r: Reply<UserData>)
      requires Valid()
      ensures lookupFails ==> r == Fail(500, ProfileErrorMessage)
      ensures !lookupFails && Find(caller.id).None? ==> r == Fail(404, UserNotFoundMessage)
      ensures !lookupFails && Find(caller.id).Some? ==> r == Ok(200, DataOf(Find(caller.id).value, None))
    {
      if lookupFails {
        return Fail(500, ProfileErrorMessage);
      }
      var user := Find(caller.id);
      if user.None? {
        return Fail(404, UserNotFoundMessage);
      }
      r := Ok(200, DataOf(user.value, None));
    }

    /** `getUserByToken`. `token` is the query parameter (`None` when absent);
        the empty string counts as absent. A failing store read is caught by
        the same handler as a failing verification and answers 401. */
    method GetUserByToken(token: Option<Token>, lookupFails: bool) returns (r: Reply<UserData>)
      requires Valid()
      ensures token.None? || token == Some(Unverifiable("")) ==> r == Fail(400, TokenRequiredMessage)
      ensures token.Some? && token != Some(Unverifiable("")) ==>
        && (Verify(token.value).None? || lookupFails ==> r == Fail(401, InvalidTokenMessage))
        && (Verify(token.value).Some? && !lookupFails ==>
             var user := Find(Verify(token.value).value);
             && (user.None? ==> r == Fail(404, UserNotFoundMessage))
             && (user.Some? ==> r == Ok(200, DataOf(user.value, None))))
    {
      if token.None? || token == Some(Unverifiable("")) {
        return Fail(400, TokenRequiredMessage);
      }
      var id := Verify(token.value);
      if id.None? || lookupFails {
        return Fail(401, InvalidTokenMessage);
      }
      var user := Find(id.value);
      if user.None? {
        return Fail(404, UserNotFoundMessage);
      }
      r := Ok(200, DataOf(user.value, None));
    }
  }

  /** A token issued for a stored account leads back to that account. */
  lemma SignedTokenFindsAccount(accounts: seq<Account>, k: nat)
    requires Distinct(accounts) && k < |accounts|
    ensures FindFirst(accounts, ById(Verify(Sign(accounts[k].id)).value)) == Some(k)
  {
    FindByIdIsUnique(accounts, k);
  }
}
