/**
 * The session: the current user (or none) and a loading flag, hydrated once
 * from the persisted `daycraft_user` key and kept equal to it by every
 * login, signup, Google login and logout. The credentials are not checked
 * against anything: any non-empty input succeeds.
 */
module Auth {
  import opened Wrappers
  import opened Text

  /** `Date.now()` for email logins and signups, the fixed tag `google_123` for Google logins. */
  datatype UserId = Stamp(ms: int) | Tag(name: string)

  datatype User = User(email: string, name: string, id: UserId, provider: Option<string>)

  datatype AuthError = InvalidCredentials | MissingField

  /** The message each rejected promise carries; the two errors read differently. */
  function Message(e: AuthError): (m: string)
    ensures m == "Invalid credentials" <==> e == InvalidCredentials
    ensures m == "Please fill in all fields" <==> e == MissingField
  {
    match e
    case InvalidCredentials => "Invalid credentials"
    case MissingField => "Please fill in all fields"
  }

  const SessionKey := "daycraft_user"
  const GoogleId := Tag("google_123")
  const GoogleProvider := "google"
  const DefaultGoogleEmail := "user@gmail.com"

  /** The persisted session as the storage shows it: absent when the key is removed. */
  function StoredSession(storage: map<string, User>): (u: Option<User>)
    ensures u.Some? <==> SessionKey in storage
    ensures u.Some? ==> u.value == storage[SessionKey]
  {
    Get(storage, SessionKey)
  }

  /** `login`'s outcome: an empty email or password is rejected; otherwise the name is the part before '@'. */
  function LoginOutcome(email: string, password: string, now: int): (r: Result<User, AuthError>)
    ensures r.Err? <==> email == "" || password == ""
    ensures r.Err? ==> r.error == InvalidCredentials && Message(r.error) == "Invalid credentials"
    ensures r.Ok? ==> && r.value.email == email && r.value.id == Stamp(now) && r.value.provider.None?
                      && r.value.name == BeforeFirst(email, '@')
  {
    if email != "" && password != "" then Ok(User(email, BeforeFirst(email, '@'), Stamp(now), None))
    else Err(InvalidCredentials)
  }

  /** `signup`'s outcome: any empty field is rejected; otherwise the given name is kept. */
  function SignupOutcome(name: string, email: string, password: string, now: int): (r: Result<User, AuthError>)
    ensures r.Err? <==> name == "" || email == "" || password == ""
    ensures r.Err? ==> r.error == MissingField && Message(r.error) == "Please fill in all fields"
    ensures r.Ok? ==> r.value == User(email, name, Stamp(now), None)
  {
    if email != "" && password != "" && name != "" then Ok(User(email, name, Stamp(now), None))
    else Err(MissingField)
  }

  /** `googleLogin`'s user: always produced, with the fixed id and provider; the email defaults when omitted. */
  function GoogleUser(email: Option<string>): (u: User)
    ensures u.id == GoogleId && u.provider == Some(GoogleProvider)
    ensures u.email == email.GetOrDefault(DefaultGoogleEmail)
    ensures u.name == BeforeFirst(u.email, '@')
  {
    var e := email.GetOrDefault(DefaultGoogleEmail);
    User(e, BeforeFirst(e, '@'), GoogleId, Some(GoogleProvider))
  }

  /** The derived name is the email's local part: a prefix without '@', followed by '@' unless it is the whole email. */
  lemma LoginNameIsLocalPart(email: string, password: string, now: int)
    requires email != "" && password != ""
    ensures var u := LoginOutcome(email, password, now).value;
      && email[..|u.name|] == u.name && '@' !in u.name
      && (|u.name| < |email| ==> email[|u.name|] == '@')
      && ('@' !in email ==> u.name == email)
  {
  }

  /** Writing a user under the session key makes it the stored session. */
  lemma WriteIsStored(storage: map<string, User>, u: User)
    ensures StoredSession(storage[SessionKey := u]) == Some(u)
  {
  }

  /** The default Google account is named "user". */
  lemma DefaultGoogleUser()
    ensures GoogleUser(None) == User("user@gmail.com", "user", Tag("google_123"), Some("google"))
  {
    var e := DefaultGoogleEmail;
    assert e[0] == 'u' && e[1] == 's' && e[2] == 'e' && e[3] == 'r' && e[4] == '@';
    assert BeforeFirst(e, '@') == "user";
  }

  /** The application-wide session holder and the storage slot it mirrors. */
  class Session {
    var user: Option<User>
    var loading: bool
    /** The browser's local storage, as far as this holder reads and writes it. */
    var storage: map<string, User>

    /** The in-memory user equals the persisted session (absent when the key is removed). */
    ghost predicate Synced()
      reads this
    {
      user == StoredSession(storage)
    }

    /** Before hydration nobody is signed in; afterwards memory and storage agree. */
    ghost predicate Valid()
      reads this
    {
      if loading then user.None? else Synced()
    }

    /** Whether the provider renders its children. */
    function RendersChildren(): bool
      reads this
    {
      !loading
    }

    /** Mounting: no user, still loading, storage as the browser holds it. */
    constructor (storage: map<string, User>)
      ensures Valid() && user.None? && loading && this.storage == storage
    {
      user := None;
      loading := true;
      this.storage := storage;
    }

    /** The mount effect: restores the stored session, if any, and ends loading. */
    method Hydrate()
      requires Valid() && loading
      modifies this
      ensures Valid() && !loading && RendersChildren()
      ensures user == StoredSession(storage) && storage == old(storage)
    {
      if SessionKey in storage {
        user := Some(storage[SessionKey]);
      }
      loading := false;
    }

    /** `login`; callable only by rendered children, so after hydration. */
    method Login(email: string, password: string, now: int) returns (r: Result<User, AuthError>)
      requires Valid() && !loading
      modifies this
      ensures Valid() && !loading
      ensures r == LoginOutcome(email, password, now)
      ensures r.Ok? ==> user == Some(r.value) && storage == old(storage)[SessionKey := r.value]
      ensures r.Err? ==> user == old(user) && storage == old(storage)
    {
      if email != "" && password != "" {
        var newUser := User(email, BeforeFirst(email, '@'), Stamp(now), None);
        WriteIsStored(storage, newUser);
        user := Some(newUser);
        storage := storage[SessionKey := newUser];
        r := Ok(newUser);
      } else {
        r := Err(InvalidCredentials);
      }
    }

    method Signup(name: string, email: string, password: string, now: int) returns (r: Result<User, AuthError>)
      requires Valid() && !loading
      modifies this
      ensures Valid() && !loading
      ensures r == SignupOutcome(name, email, password, now)
      ensures r.Ok? ==> user == Some(r.value) && storage == old(storage)[SessionKey := r.value]
      ensures r.Err? ==> user == old(user) && storage == old(storage)
    {
      if email != "" && password != "" && name != "" {
        var newUser := User(email, name, Stamp(now), None);
        WriteIsStored(storage, newUser);
        user := Some(newUser);
        storage := storage[SessionKey := newUser];
        r := Ok(newUser);
      } else {
        r := Err(MissingField);
      }
    }

    method GoogleLogin(email: Option<string>) returns (u: User)
      requires Valid() && !loading
      modifies this
      ensures Valid() && !loading
      ensures u == GoogleUser(email)
      ensures user == Some(u) && storage == old(storage)[SessionKey := u]
    {
      u := GoogleUser(email);
      WriteIsStored(storage, u);
      user := Some(u);
      storage := storage[SessionKey := u];
    }

    /** `logout`: always signs out and removes the key; nothing else in storage changes. */
    method Logout()
      requires Valid() && !loading
      modifies this
      ensures Valid() && !loading
      ensures user.None? && storage == old(storage) - {SessionKey}
    {
      user := None;
      storage := storage - {SessionKey};
    }
  }

  /** A rejected login leaves an anonymous session anonymous. */
  method RejectedLoginScenario(storage: map<string, User>) returns (r: Result<User, AuthError>, signedIn: bool)
    requires SessionKey !in storage
    ensures r == Err(InvalidCredentials) && Message(r.error) == "Invalid credentials"
    ensures !signedIn
  {
    var s := new Session(storage);
    s.Hydrate();
    r := s.Login("", "x", 0);
    signedIn := s.user.Some?;
  }
}
