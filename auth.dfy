/** The auth store: the signed-in user, the session token mirrored under
    localStorage key 'token', and the `loading` flag of login and sign-up. */
module Auth {
  import opened Common
  import opened Storage

  const TOKEN_KEY: string := "token"
  const INVALID_CREDENTIALS: string := "Invalid credentials"
  const WRONG_CREDENTIALS_MESSAGE: string := "Invalid email or password"
  const LOGIN_FAILED_MESSAGE: string := "An error occurred, please try again later"
  const SIGNUP_FAILED_MESSAGE: string := "Failed to sign up"

  /** The claims the store reads from a decoded token. */
  datatype User = User(id: string, email: string, name: string)

  /** What an action throws to its caller: an error it raises itself for a
      rejected request, the error a failed `fetch` raised, or the error
      `jwtDecode` raised. */
  datatype AuthError = Rejected(message: string) | NetworkError(message: string) | DecodeFailed

  /** The store's state together with localStorage. */
  datatype Session = Session(user: Option<User>, token: Option<string>, loading: bool, entries: map<string, string>)

  /** The state an action leaves and the error it threw, if any. */
  datatype Step = Step(after: Session, thrown: Option<AuthError>)

  /** The message a login rejected by the server throws. */
  function LoginErrorMessage(serverMessage: Option<string>): (m: string)
    ensures m == WRONG_CREDENTIALS_MESSAGE <==> serverMessage == Some(INVALID_CREDENTIALS)
    ensures m == WRONG_CREDENTIALS_MESSAGE || m == LOGIN_FAILED_MESSAGE
  {
    if serverMessage == Some(INVALID_CREDENTIALS) then WRONG_CREDENTIALS_MESSAGE else LOGIN_FAILED_MESSAGE
  }

  /** `persistToken`: adopt the stored token, if there is a truthy one. */
  function PersistTokenSpec(s: Session): (r: Session)
    ensures r.user == s.user && r.loading == s.loading && r.entries == s.entries
    ensures Truthy(Lookup(s.entries, TOKEN_KEY)) ==> r.token == Lookup(s.entries, TOKEN_KEY)
    ensures !Truthy(Lookup(s.entries, TOKEN_KEY)) ==> r == s
  {
    var stored := Lookup(s.entries, TOKEN_KEY);
    if Truthy(stored) then s.(token := stored) else s
  }

  /** `logout`: forget the user and the token, in memory and in storage. */
  function LogoutSpec(s: Session): (r: Session)
    ensures r.user == None && r.token == None
    ensures r.entries == s.entries - {TOKEN_KEY} && TOKEN_KEY !in r.entries
    ensures r.loading == s.loading
  {
    PersistTokenSpec(s.(user := None, token := None, entries := s.entries - {TOKEN_KEY}))
  }

  /** The tail that login and sign-up share once the server answered with a
      token: store it, then decode it into the user. A decoding failure
      throws after the token was already stored. */
  function StoreTokenSpec(s: Session, token: string, decode: string -> Option<User>): (r: Step)
    ensures r.after.token == Some(token) && r.after.entries == s.entries[TOKEN_KEY := token]
    ensures r.after.loading == s.loading
    ensures decode(token).Some? ==> r.thrown == None && r.after.user == decode(token)
    ensures decode(token).None? ==> r.thrown == Some(DecodeFailed) && r.after.user == s.user
  {
    var stored := s.(token := Some(token), entries := s.entries[TOKEN_KEY := token]);
    match decode(token)
    case None => Step(stored, Some(DecodeFailed))
    case Some(u) => Step(PersistTokenSpec(stored.(user := Some(u))), None)
  }

  /** `login`, given how its request ended. */
  function LoginSpec(s: Session, response: Outcome<string>, decode: string -> Option<User>): (r: Step)
    ensures response.Threw? ==> r == Step(s.(loading := true), Some(NetworkError(response.error)))
    ensures !response.Threw? ==> !r.after.loading
    ensures response.NotOk? ==>
      r == Step(s.(loading := false), Some(Rejected(LoginErrorMessage(response.message))))
    ensures response.Ok? ==> r == StoreTokenSpec(s.(loading := false), response.payload, decode)
  {
    match response
    case Threw(e) => Step(s.(loading := true), Some(NetworkError(e)))
    case NotOk(m) => Step(s.(loading := false), Some(Rejected(LoginErrorMessage(m))))
    case Ok(token) => StoreTokenSpec(s.(loading := false), token, decode)
  }

  /** `signUp`, given how its request ended. */
  function SignUpSpec(s: Session, response: Outcome<string>, decode: string -> Option<User>): (r: Step)
    ensures response.Threw? ==> r == Step(s.(loading := true), Some(NetworkError(response.error)))
    ensures !response.Threw? ==> !r.after.loading
    ensures response.NotOk? ==> r == Step(s.(loading := false), Some(Rejected(SIGNUP_FAILED_MESSAGE)))
    ensures response.Ok? ==> r == StoreTokenSpec(s.(loading := false), response.payload, decode)
  {
    match response
    case Threw(e) => Step(s.(loading := true), Some(NetworkError(e)))
    case NotOk(_) => Step(s.(loading := false), Some(Rejected(SIGNUP_FAILED_MESSAGE)))
    case Ok(token) => StoreTokenSpec(s.(loading := false), token, decode)
  }

  /** Adopting the stored token twice is adopting it once. */
  lemma PersistTokenIdempotent(s: Session)
    ensures PersistTokenSpec(PersistTokenSpec(s)) == PersistTokenSpec(s)
  {
  }

  /** A rejected login or sign-up throws and changes neither the user, the
      token nor storage. */
  lemma RejectedLeavesSessionAlone(s: Session, message: Option<string>, decode: string -> Option<User>)
    ensures var r := LoginSpec(s, NotOk(message), decode);
      r.thrown.Some? && r.after.user == s.user && r.after.token == s.token && r.after.entries == s.entries
    ensures var r := SignUpSpec(s, NotOk(message), decode);
      r.thrown.Some? && r.after.user == s.user && r.after.token == s.token && r.after.entries == s.entries
  {
  }

  /** After a login that returned a non-empty token, a reloaded store (all
      fields at their initial values) that runs `persistToken` gets the same
      token back. */
  lemma LoginSurvivesReload(s: Session, token: string, decode: string -> Option<User>)
    requires token != ""
    ensures var r := LoginSpec(s, Ok(token), decode);
      PersistTokenSpec(Session(None, None, false, r.after.entries)).token == Some(token)
  {
  }

  class AuthStore {
    var user: Option<User>
    var token: Option<string>
    var loading: bool
    const storage: LocalStorage

    function View(): Session
      reads this, storage
    {
      Session(user, token, loading, storage.entries)
    }

    constructor (storage: LocalStorage)
      ensures this.storage == storage
      ensures View() == Session(None, None, false, storage.entries)
    {
      this.storage := storage;
      user := None;
      token := None;
      loading := false;
    }

    method PersistToken()
      modifies this
      ensures View() == PersistTokenSpec(old(View()))
    {
      var stored := storage.Get(TOKEN_KEY);
      if !Truthy(stored) {
        return;
      }
      token := stored;
    }

    method Logout()
      modifies this, storage
      ensures View() == LogoutSpec(old(View()))
    {
      user := None;
      token := None;
      storage.RemoveItem(TOKEN_KEY);
      PersistToken();
    }

    method StoreToken(newToken: string, decode: string -> Option<User>) returns (thrown: Option<AuthError>)
      modifies this, storage
      ensures Step(View(), thrown) == StoreTokenSpec(old(View()), newToken, decode)
    {
      token := Some(newToken);
      storage.SetItem(TOKEN_KEY, newToken);
      var decoded := decode(newToken);
      if decoded.None? {
        return Some(DecodeFailed);
      }
      user := decoded;
      PersistToken();
      thrown := None;
    }

    /** `login`; the request is abstracted to its outcome. */
    method Login(response: Outcome<string>, decode: string -> Option<User>) returns (thrown: Option<AuthError>)
      modifies this, storage
      ensures Step(View(), thrown) == LoginSpec(old(View()), response, decode)
    {
      loading := true;
      if response.Threw? {
        return Some(NetworkError(response.error));
      }
      loading := false;
      match response
      case NotOk(m) =>
        thrown := Some(Rejected(LoginErrorMessage(m)));
      case Ok(t) =>
        thrown := StoreToken(t, decode);
    }

    /** `signUp`; the request is abstracted to its outcome. */
    method SignUp(response: Outcome<string>, decode: string -> Option<User>) returns (thrown: Option<AuthError>)
      modifies this, storage
      ensures Step(View(), thrown) == SignUpSpec(old(View()), response, decode)
    {
      loading := true;
      if response.Threw? {
        return Some(NetworkError(response.error));
      }
      loading := false;
      match response
      case NotOk(_) =>
        thrown := Some(Rejected(SIGNUP_FAILED_MESSAGE));
      case Ok(t) =>
        thrown := StoreToken(t, decode);
    }
  }
}
