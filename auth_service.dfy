/**
 * The session kept by the auth service: the token and the signed-in user in
 * browser storage, the three observable values (current user, signed-in
 * flag, role) and the transitions login, signup, profile refresh, logout and
 * the token-expiry check make between the signed-out and signed-in states.
 */
module AuthService {
  import opened Wrappers
  import opened UserJson

  const TokenKey := "authToken"
  const UserKey := "currentUser"

  datatype SignupData = SignupData(fullName: string, email: string, password: string, role: Option<string>)

  datatype LoginData = LoginData(email: string, password: string)

  /** What the login, signup and profile endpoints answer. */
  datatype AuthResponse = AuthResponse(success: bool, message: string, token: Option<string>, user: Option<User>)

  /** What decoding the middle part of the stored token yields: nothing readable, or a payload with or without `exp`. */
  datatype TokenPayload = Malformed | Payload(exp: Option<int>)

  /** A guard's answer, and where the router is sent when it refuses. */
  datatype Decision = Decision(allow: bool, redirect: Option<string>)

  /** `!!localStorage.getItem('authToken')`: a non-empty token is stored. */
  predicate HasToken(storage: map<string, string>) {
    TokenKey in storage && storage[TokenKey] != ""
  }

  /** `getUserFromStorage()`: nothing when the entry is missing or empty, else the user it holds. */
  function StoredUser(storage: map<string, string>): Option<User> {
    if UserKey in storage && storage[UserKey] != "" then Decode(storage[UserKey]) else None
  }

  /** `JSON.parse` does not throw on the stored user entry. */
  predicate StoredUserReadable(storage: map<string, string>) {
    UserKey in storage && storage[UserKey] != "" ==> Decode(storage[UserKey]).Some?
  }

  /** `getRoleFromStorage()` */
  function StoredRole(storage: map<string, string>): (r: Option<string>)
    ensures r.Some? <==> StoredUser(storage).Some?
    ensures r.Some? ==> r.value == StoredUser(storage).value.role
  {
    match StoredUser(storage)
    case None => None
    case Some(u) => Some(u.role)
  }

  /** The role read back from storage is the role of the user last stored, and none once storage is cleared. */
  lemma StoredRoleOf(storage: map<string, string>, u: User)
    ensures StoredRole(storage[UserKey := Encode(u)]) == Some(u.role)
    ensures StoredRole(Cleared(storage)) == None
  {
    StoredAfterSet(storage, u);
  }

  /** Storing a user (`setCurrentUser`) makes the stored entry read back as that user. */
  lemma StoredAfterSet(storage: map<string, string>, u: User)
    ensures StoredUser(storage[UserKey := Encode(u)]) == Some(u)
    ensures StoredUserReadable(storage[UserKey := Encode(u)])
    ensures HasToken(storage[UserKey := Encode(u)]) == HasToken(storage)
  {
    DecodeEncode(u);
  }

  /** Storage after `clearAuthData()`: both entries gone, every other entry kept. */
  function Cleared(storage: map<string, string>): (r: map<string, string>)
    ensures !HasToken(r) && StoredUser(r) == None && StoredUserReadable(r)
    ensures forall k :: k in r <==> k in storage && k != TokenKey && k != UserKey
    ensures forall k :: k in r ==> r[k] == storage[k]
  {
    storage - {TokenKey, UserKey}
  }

  /** `checkTokenValidity()` signs out: a token is stored and its payload is unreadable or expired at `now`. */
  predicate Expires(storage: map<string, string>, payload: TokenPayload, now: int) {
    HasToken(storage) &&
    match payload
    case Malformed => true
    case Payload(exp) => exp.Some? && exp.value * 1000 < now
  }

  /** A response carries both a (non-empty) token and a user. */
  predicate Grants(response: AuthResponse) {
    response.token.Some? && response.token.value != "" && response.user.Some?
  }

  class AuthService {
    const apiUrl: string
    var storage: map<string, string>
    var currentUser: Option<User>
    var authenticated: bool
    var role: Option<string>

    /** The current user and the signed-in flag mirror what storage holds. */
    ghost predicate Valid()
      reads this
    {
      StoredUserReadable(storage) && currentUser == StoredUser(storage) && authenticated == HasToken(storage)
    }

    /**
     * The service starts from what storage holds and then runs the expiry
     * check. A stored user entry that `JSON.parse` would throw on stops the
     * service from being created at all.
     */
    constructor(environmentApiUrl: string, storage0: map<string, string>, payload: TokenPayload, now: int)
      requires StoredUserReadable(storage0)
      ensures Valid() && apiUrl == environmentApiUrl + "/auth"
      ensures Expires(storage0, payload, now) ==>
        storage == Cleared(storage0) && currentUser == None && !authenticated && role == None
      ensures !Expires(storage0, payload, now) ==>
        storage == storage0 && currentUser == StoredUser(storage0) &&
        authenticated == HasToken(storage0) && role == StoredRole(storage0)
    {
      apiUrl := environmentApiUrl + "/auth";
      storage := storage0;
      currentUser := StoredUser(storage0);
      authenticated := HasToken(storage0);
      role := StoredRole(storage0);
      new;
      CheckTokenValidity(payload, now);
    }

    /** `signup` posts to the admin endpoint exactly when the requested role is `'admin'`. */
    function SignupEndpoint(data: SignupData): (r: string)
      ensures r == apiUrl + "/signup/admin" <==> data.role == Some("admin")
      ensures data.role != Some("admin") ==> r == apiUrl + "/signup"
    {
      var admin := "/signup/admin";
      var plain := "/signup";
      assert apiUrl + admin != apiUrl + plain by {
        assert |apiUrl + admin| != |apiUrl + plain|;
      }
      if data.role == Some("admin") then apiUrl + admin else apiUrl + plain
    }

    /** `login` posts to the admin endpoint exactly when `isAdmin` is set. */
    function LoginEndpoint(isAdmin: bool): (r: string)
      ensures r == apiUrl + "/login/admin" <==> isAdmin
      ensures !isAdmin ==> r == apiUrl + "/login"
    {
      var admin := "/login/admin";
      var plain := "/login";
      assert apiUrl + admin != apiUrl + plain by {
        assert |apiUrl + admin| != |apiUrl + plain|;
      }
      if isAdmin then apiUrl + admin else apiUrl + plain
    }

    /** `signup(data)`: the endpoint used, then the response's effect. */
    method Signup(data: SignupData, response: AuthResponse) returns (endpoint: string)
      requires Valid()
      modifies this
      ensures endpoint == SignupEndpoint(data) && Valid()
      ensures Grants(response) ==>
        storage == old(storage)[TokenKey := response.token.value][UserKey := Encode(response.user.value)] &&
        currentUser == response.user && authenticated && role == Some(response.user.value.role)
      ensures !Grants(response) ==>
        storage == old(storage) && currentUser == old(currentUser) && authenticated == old(authenticated) && role == old(role)
    {
      endpoint := SignupEndpoint(data);
      ApplyAuthResponse(response);
    }

    /** `login(data, isAdmin)`: the endpoint used, then the response's effect. */
    method Login(data: LoginData, isAdmin: bool, response: AuthResponse) returns (endpoint: string)
      requires Valid()
      modifies this
      ensures endpoint == LoginEndpoint(isAdmin) && Valid()
      ensures Grants(response) ==>
        storage == old(storage)[TokenKey := response.token.value][UserKey := Encode(response.user.value)] &&
        currentUser == response.user && authenticated && role == Some(response.user.value.role)
      ensures !Grants(response) ==>
        storage == old(storage) && currentUser == old(currentUser) && authenticated == old(authenticated) && role == old(role)
    {
      endpoint := LoginEndpoint(isAdmin);
      ApplyAuthResponse(response);
    }

    /** The tap shared by signup and login: a token and a user sign the user in; anything less changes nothing. */
    method ApplyAuthResponse(response: AuthResponse)
      requires Valid()
      modifies this
      ensures Valid()
      ensures Grants(response) ==>
        storage == old(storage)[TokenKey := response.token.value][UserKey := Encode(response.user.value)] &&
        currentUser == response.user && authenticated && role == Some(response.user.value.role)
      ensures !Grants(response) ==>
        storage == old(storage) && currentUser == old(currentUser) && authenticated == old(authenticated) && role == old(role)
    {
      if response.token.Some? && response.token.value != "" && response.user.Some? {
        SetToken(response.token.value);
        SetCurrentUser(response.user.value);
        authenticated := true;
        role := Some(response.user.value.role);
      }
    }

    /** The tap of `getProfile` and `updateProfile`: a returned user replaces the stored one and nothing else. */
    method ApplyProfile(response: AuthResponse)
      requires Valid()
      modifies this
      ensures Valid()
      ensures authenticated == old(authenticated) && role == old(role)
      ensures response.user.Some? ==> storage == old(storage)[UserKey := Encode(response.user.value)] && currentUser == response.user
      ensures response.user.None? ==> storage == old(storage) && currentUser == old(currentUser)
    {
      if response.user.Some? {
        SetCurrentUser(response.user.value);
      }
    }

    method GetProfile(response: AuthResponse)
      requires Valid()
      modifies this
      ensures Valid()
      ensures authenticated == old(authenticated) && role == old(role)
      ensures response.user.Some? ==> storage == old(storage)[UserKey := Encode(response.user.value)] && currentUser == response.user
      ensures response.user.None? ==> storage == old(storage) && currentUser == old(currentUser)
    {
      ApplyProfile(response);
    }

    /** `fullName` and `email` only form the request body. */
    method UpdateProfile(fullName: string, email: string, response: AuthResponse)
      requires Valid()
      modifies this
      ensures Valid()
      ensures authenticated == old(authenticated) && role == old(role)
      ensures response.user.Some? ==> storage == old(storage)[UserKey := Encode(response.user.value)] && currentUser == response.user
      ensures response.user.None? ==> storage == old(storage) && currentUser == old(currentUser)
    {
      ApplyProfile(response);
    }

    /** `logout()`: the session is cleared and the router sent to `/login` whether or not the server accepted. */
    method Logout(serverAccepted: bool) returns (navigateTo: string)
      modifies this
      ensures storage == Cleared(old(storage)) && currentUser == None && !authenticated && role == None && Valid()
      ensures navigateTo == "/login"
    {
      // The success and the error callbacks of the source do the same thing,
      // so the server's reply is not looked at.
      ClearAuthData();
      navigateTo := "/login";
    }

    method LogoutLocal() returns (navigateTo: string)
      modifies this
      ensures storage == Cleared(old(storage)) && currentUser == None && !authenticated && role == None && Valid()
      ensures navigateTo == "/login"
    {
      ClearAuthData();
      navigateTo := "/login";
    }

    function GetToken(): (r: Option<string>)
      reads this
      ensures r.Some? <==> TokenKey in storage
      ensures r.Some? ==> r.value == storage[TokenKey]
      ensures Valid() ==> (authenticated <==> r.Some? && r.value != "")
    {
      if TokenKey in storage then Some(storage[TokenKey]) else None
    }

    method SetToken(token: string)
      modifies this
      ensures storage == old(storage)[TokenKey := token]
      ensures currentUser == old(currentUser) && authenticated == old(authenticated) && role == old(role)
    {
      storage := storage[TokenKey := token];
    }

    function GetCurrentUser(): Option<User>
      reads this
    {
      currentUser
    }

    method SetCurrentUser(user: User)
      modifies this
      ensures storage == old(storage)[UserKey := Encode(user)] && currentUser == Some(user)
      ensures authenticated == old(authenticated) && role == old(role)
      ensures StoredUser(storage) == Some(user) && StoredUserReadable(storage)
    {
      storage := storage[UserKey := Encode(user)];
      currentUser := Some(user);
      StoredAfterSet(old(storage), user);
    }

    /** A non-empty token is stored; the signed-in flag agrees with it whenever the state is consistent. */
    function IsAuthenticated(): (r: bool)
      reads this
      ensures r <==> GetToken().Some? && GetToken().value != ""
      ensures Valid() ==> r == authenticated
    {
      HasToken(storage)
    }

    function IsAdmin(): (r: bool)
      reads this
      ensures r <==> role == Some("admin")
      ensures r ==> !IsUser()
    {
      role == Some("admin")
    }

    function IsUser(): (r: bool)
      reads this
      ensures r <==> role == Some("user")
    {
      role == Some("user")
    }

    method ClearAuthData()
      modifies this
      ensures storage == Cleared(old(storage)) && currentUser == None && !authenticated && role == None && Valid()
    {
      storage := storage - {TokenKey};
      storage := storage - {UserKey};
      currentUser := None;
      authenticated := false;
      role := None;
    }

    /**
     * With a token stored, an unreadable payload or one whose `exp` (in
     * seconds) is before `now` (in milliseconds) clears the session; with no
     * token, or an unexpired one, nothing changes.
     */
    method CheckTokenValidity(payload: TokenPayload, now: int)
      requires Valid()
      modifies this
      ensures Valid()
      ensures Expires(old(storage), payload, now) ==>
        storage == Cleared(old(storage)) && currentUser == None && !authenticated && role == None
      ensures !Expires(old(storage), payload, now) ==>
        storage == old(storage) && currentUser == old(currentUser) && authenticated == old(authenticated) && role == old(role)
    {
      var token := GetToken();
      if token.Some? && token.value != "" {
        match payload
        case Malformed =>
          ClearAuthData();
        case Payload(exp) =>
          if exp.Some? && exp.value * 1000 < now {
            ClearAuthData();
          }
      }
    }
  }
}
