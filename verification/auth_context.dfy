/** The app-wide session: the signed-in user, the token and user record kept
    in device storage, and the login, register, logout and restore
    operations every screen reaches through the auth context. */
module AuthContext {
  import opened Seqs

  const TokenKey := "auth_token"
  const UserKey := "user_data"
  const EmergencyFlagKey := "emergency_button_disabled"
  const FloatingModeKey := "floating_mode"
  /** The keys logout removes. */
  const SessionKeys: set<string> := {TokenKey, UserKey, EmergencyFlagKey, FloatingModeKey}

  datatype User = User(id: string, email: string, name: string, vehiclePlate: string)

  /** A stored value: a user serialised by JSON.stringify, or some other
      text, which JSON.parse does not turn into a user. */
  datatype StoredValue = Text(text: string) | UserJson(user: User)

  /** JavaScript truthiness of a stored string: only "" is falsy. */
  predicate Truthy(v: StoredValue) {
    v.UserJson? || v.text != ""
  }

  /** The two requests the context sends. */
  datatype AuthRequest =
    | LoginRequest(email: string, password: string)
    | RegisterRequest(email: string, password: string, name: string, vehiclePlate: string)

  /** The answer: an error status (a network failure included) or a 2xx body
      with, possibly, an access token and a user. */
  datatype AuthResponse =
    | Failure(status: nat)
    | Success(accessToken: Option<string>, user: Option<User>)

  /** A session is granted by a 2xx answer carrying a non-empty token and a
      user (`data.access_token && data.user`). */
  function Granted(response: AuthResponse): Option<(string, User)> {
    if response.Success? && response.accessToken.Some? && response.accessToken.value != "" && response.user.Some?
    then Some((response.accessToken.value, response.user.value))
    else None
  }

  /** The user checkAuthStatus restores: both keys set and non-empty, and
      the user record readable. */
  function RestoredUser(storage: map<string, StoredValue>): Option<User> {
    if TokenKey in storage && Truthy(storage[TokenKey]) && UserKey in storage && storage[UserKey].UserJson?
    then Some(storage[UserKey].user)
    else None
  }

  /** Storage as a granted session leaves it. */
  function WithSession(storage: map<string, StoredValue>, token: string, user: User): map<string, StoredValue> {
    storage[TokenKey := Text(token)][UserKey := UserJson(user)]
  }

  /** A session written by login or register is restored as it was: a
      restart brings back the same user. */
  lemma SessionRoundTrip(storage: map<string, StoredValue>, response: AuthResponse)
    requires Granted(response).Some?
    ensures RestoredUser(WithSession(storage, Granted(response).value.0, Granted(response).value.1))
         == Some(Granted(response).value.1)
  {
  }

  /** After logout nothing is restored, the emergency flag and floating mode
      are gone too, and every other key is untouched. */
  lemma LogoutForgets(storage: map<string, StoredValue>)
    ensures RestoredUser(storage - SessionKeys).None?
    ensures EmergencyFlagKey !in storage - SessionKeys && FloatingModeKey !in storage - SessionKeys
    ensures forall k :: k in storage && k !in SessionKeys ==> k in storage - SessionKeys && (storage - SessionKeys)[k] == storage[k]
  {
  }

  class AuthSession {
    var storage: map<string, StoredValue>
    var user: Option<User>
    var isLoading: bool

    constructor (stored: map<string, StoredValue>)
      ensures storage == stored && user.None? && isLoading
    {
      storage := stored;
      user := None;
      isLoading := true;
    }

    /** `isAuthenticated: !!user`. */
    predicate IsAuthenticated()
      reads this
    {
      user.Some?
    }

    /** checkAuthStatus: restores the stored user; when nothing is stored or
        the record cannot be read the user stays as it was. */
    method CheckAuthStatus()
      modifies this`user, this`isLoading
      ensures !isLoading
      ensures user == if RestoredUser(storage).Some? then RestoredUser(storage) else old(user)
    {
      isLoading := true;
      if TokenKey in storage && Truthy(storage[TokenKey]) && UserKey in storage && Truthy(storage[UserKey]) {
        if storage[UserKey].UserJson? {
          user := Some(storage[UserKey].user);
        }
      }
      isLoading := false;
    }

    /** The shared tail of login and register: a granted session is stored
        and becomes the current user; anything else changes nothing. */
    method Accept(response: AuthResponse) returns (ok: bool)
      modifies this`storage, this`user, this`isLoading
      ensures !isLoading
      ensures ok <==> Granted(response).Some?
      ensures ok ==>
        && storage == WithSession(old(storage), Granted(response).value.0, Granted(response).value.1)
        && user == Some(Granted(response).value.1)
      ensures !ok ==> storage == old(storage) && user == old(user)
    {
      ok := false;
      if response.Success? && response.accessToken.Some? && response.accessToken.value != "" && response.user.Some? {
        storage := storage[TokenKey := Text(response.accessToken.value)];
        storage := storage[UserKey := UserJson(response.user.value)];
        user := response.user;
        ok := true;
      }
      isLoading := false;
    }

    /** login: POST /login with the credentials; `server` stands for the
        backend's answer to a request. */
    method Login(email: string, password: string, server: AuthRequest -> AuthResponse) returns (ok: bool)
      modifies this`storage, this`user, this`isLoading
      ensures !isLoading
      ensures var g := Granted(server(LoginRequest(email, password)));
        && (ok <==> g.Some?)
        && (ok ==> storage == WithSession(old(storage), g.value.0, g.value.1) && user == Some(g.value.1))
        && (!ok ==> storage == old(storage) && user == old(user))
      ensures ok ==> IsAuthenticated()
    {
      isLoading := true;
      var response := server(LoginRequest(email, password));
      ok := Accept(response);
    }

    /** register: POST /register with the new account's fields. */
    method Register(email: string, password: string, name: string, vehiclePlate: string,
                    server: AuthRequest -> AuthResponse) returns (ok: bool)
      modifies this`storage, this`user, this`isLoading
      ensures !isLoading
      ensures var g := Granted(server(RegisterRequest(email, password, name, vehiclePlate)));
        && (ok <==> g.Some?)
        && (ok ==> storage == WithSession(old(storage), g.value.0, g.value.1) && user == Some(g.value.1))
        && (!ok ==> storage == old(storage) && user == old(user))
      ensures ok ==> IsAuthenticated()
    {
      isLoading := true;
      var response := server(RegisterRequest(email, password, name, vehiclePlate));
      ok := Accept(response);
    }

    /** logout: the session keys go and nobody is signed in. */
    method Logout()
      modifies this`storage, this`user
      ensures storage == old(storage) - SessionKeys
      ensures !IsAuthenticated()
    {
      storage := storage - SessionKeys;
      user := None;
    }
  }
}
