/** The sign-in / sign-up page: the two credential validators, the fixed order in
    which the handlers reject a form locally, and what a server reply does to the
    page, the session store and local storage. */
module Auth {
  import opened Common
  import opened Text
  import opened Session

  const InvalidEmailMsg := "Please enter a valid email"
  const ShortPasswordMsg := "Password must be at least 8 characters"
  const NameRequiredMsg := "Name is required"
  const MismatchMsg := "Passwords do not match"
  const LoginFailedMsg := "Login failed"
  const LoginRetryMsg := "Login failed. Please try again."
  const LoginSuccessMsg := "Login successful! Redirecting..."
  const SignupFailedMsg := "Signup failed"
  const SignupRetryMsg := "Signup failed. Please try again."
  const SignupSuccessMsg := "Account created successfully! Please log in."
  /** The local-storage key under which a successful login keeps the token. */
  const AuthTokenKey := "authToken"
  /** The minimum password length the code enforces (its message says 8). */
  const MinPasswordLength := 6

  // ---------------------------------------------------------------------------
  // Email: the regular expression /^[^\s@]+@[^\s@]+\.[^\s@]+$/
  // ---------------------------------------------------------------------------

  /** A character of the class `[^\s@]`. */
  predicate EmailChar(c: char) {
    !IsWhitespace(c) && c != '@'
  }

  predicate AllEmailChars(s: string) {
    forall i :: 0 <= i < |s| ==> EmailChar(s[i])
  }

  /** One way for the pattern to match `s`: the `@` at `at`, the literal `.` at `dot`,
      and each of the three `[^\s@]+` runs non-empty. */
  predicate EmailSplit(s: string, at: int, dot: int) {
    0 < at && at + 1 < dot && dot + 1 < |s| &&
    s[at] == '@' && s[dot] == '.' &&
    AllEmailChars(s[..at]) && AllEmailChars(s[at + 1..dot]) && AllEmailChars(s[dot + 1..])
  }

  /** The strings the regular expression matches (it is anchored at both ends, so the
      whole string must be one of these splits; backtracking tries every dot). */
  ghost predicate MatchesEmailPattern(s: string) {
    exists at, dot :: EmailSplit(s, at, dot)
  }

  /** Position of the first `c` in `s`, or -1. */
  function IndexOf(s: string, c: char): (r: int)
    ensures -1 <= r < |s|
    ensures r == -1 <==> c !in s
    ensures r >= 0 ==> s[r] == c && c !in s[..r]
  {
    if s == [] then -1
    else if s[0] == c then 0
    else
      var k := IndexOf(s[1..], c);
      if k == -1 then -1 else k + 1
  }

  /** The part after the `@`: free of `@`, with a `.` that has at least one character
      on each side. */
  predicate ValidDomain(d: string) {
    '@' !in d && |d| >= 3 && '.' in d[1..|d| - 1]
  }

  /** `validateEmail`: no white space anywhere, a non-empty local part before the first
      `@`, and a valid domain after it. An accepted address has at least five
      characters, an `@` and a `.`. */
  predicate ValidateEmail(email: string)
    ensures ValidateEmail(email) ==> |email| >= 5 && '@' in email && '.' in email
  {
    NoWhitespace(email) &&
    var at := IndexOf(email, '@');
    0 < at && ValidDomain(email[at + 1..])
  }

  lemma AllEmailCharsSlice(s: string, lo: int, hi: int)
    requires 0 <= lo <= hi <= |s|
    requires NoWhitespace(s) && '@' !in s[lo..hi]
    ensures AllEmailChars(s[lo..hi])
  {
    forall i | 0 <= i < hi - lo ensures EmailChar(s[lo..hi][i]) {
      assert s[lo..hi][i] == s[lo + i];
      assert s[lo + i] in s[lo..hi];
    }
  }

  /** The decision procedure accepts exactly the strings the regular expression matches. */
  lemma {:induction false} ValidateEmailMatchesPattern(s: string)
    ensures ValidateEmail(s) <==> MatchesEmailPattern(s)
  {
    if ValidateEmail(s) {
      var at := IndexOf(s, '@');
      var d := s[at + 1..];
      var k :| 0 <= k < |d| - 2 && d[1..|d| - 1][k] == '.';
      var dot := at + 2 + k;
      assert s[dot] == '.';
      assert s[at + 1..dot] == d[..k + 1];
      assert s[dot + 1..] == d[k + 2..];
      AllEmailCharsSlice(s, 0, at);
      AllEmailCharsSlice(s, at + 1, dot);
      AllEmailCharsSlice(s, dot + 1, |s|);
      assert s[..at] == s[0..at];
      assert s[dot + 1..] == s[dot + 1..|s|];
      assert EmailSplit(s, at, dot);
    }
    if MatchesEmailPattern(s) {
      var at, dot :| EmailSplit(s, at, dot);
      EmailSplitIsValid(s, at, dot);
    }
  }

  /** Any match of the pattern is accepted by the decision procedure. */
  lemma EmailSplitIsValid(s: string, at: int, dot: int)
    requires EmailSplit(s, at, dot)
    ensures ValidateEmail(s)
  {
    var a, b, c := s[..at], s[at + 1..dot], s[dot + 1..];
    assert s == a + ['@'] + b + ['.'] + c;
    forall i | 0 <= i < |s| ensures !IsWhitespace(s[i]) {
      if i < at { assert s[i] == a[i]; }
      else if at < i < dot { assert s[i] == b[i - at - 1]; }
      else if dot < i { assert s[i] == c[i - dot - 1]; }
    }
    var first := IndexOf(s, '@');
    assert first == at;
    var d := s[at + 1..];
    assert d == b + ['.'] + c;
    assert d[1..|d| - 1][|b| - 1] == '.';
    assert '@' !in d;
  }

  /** A string with no `@`, with two or more `@`, or with any white space is rejected. */
  lemma {:induction false} MalformedEmailRejected(s: string)
    requires '@' !in s || (exists i, j :: 0 <= i < j < |s| && s[i] == '@' && s[j] == '@') ||
             (exists i :: 0 <= i < |s| && IsWhitespace(s[i]))
    ensures !ValidateEmail(s)
  {

  }

  // ---------------------------------------------------------------------------
  // Password: `password.length >= 6`, where `length` counts UTF-16 code units
  // ---------------------------------------------------------------------------

  /** Number of UTF-16 code units that encode `s`: characters beyond the Basic
      Multilingual Plane take a surrogate pair. */
  function Utf16Length(s: string): (n: nat)
    ensures |s| <= n <= 2 * |s|
  {
    if s == [] then 0
    else (if s[0] > '\U{FFFF}' then 2 else 1) + Utf16Length(s[1..])
  }

  /** `validatePassword`. Every password of six or more characters passes, so a six-
      or seven-character password is accepted although the page asks for at least
      eight; and a password of fewer than three characters never passes. */
  predicate ValidatePassword(password: string)
    ensures |password| >= 6 ==> ValidatePassword(password)
    ensures |password| < 3 ==> !ValidatePassword(password)
  {
    Utf16Length(password) >= MinPasswordLength
  }

  // ---------------------------------------------------------------------------
  // The chains of local rejections
  // ---------------------------------------------------------------------------

  /** One local check of a handler: whether it holds and the message shown if not. */
  datatype Rule = Rule(holds: bool, message: string)

  /** The `i`-th rule is the first one that fails. */
  predicate FailsFirstAt(rules: seq<Rule>, i: int) {
    0 <= i < |rules| && !rules[i].holds && forall j :: 0 <= j < i ==> rules[j].holds
  }

  /** Index of the first rule that fails, or `|rules|` when every rule holds. */
  function FirstFailing(rules: seq<Rule>): (k: nat)
    ensures k <= |rules|
    ensures forall j :: 0 <= j < k ==> rules[j].holds
    ensures k < |rules| ==> !rules[k].holds
  {
    if rules == [] || !rules[0].holds then 0 else 1 + FirstFailing(rules[1..])
  }

  /** What a chain of `if (!check) { setError(msg); return; }` leaves in `error`:
      nothing exactly when every rule holds, and otherwise the message of the first
      failing rule, wherever it sits. */
  function FirstFailure(rules: seq<Rule>): (r: Option<string>)
    ensures r.None? <==> forall i :: 0 <= i < |rules| ==> rules[i].holds
    ensures forall i :: FailsFirstAt(rules, i) ==> r == Some(rules[i].message)
  {
    var k := FirstFailing(rules);
    if k < |rules| then Some(rules[k].message) else None
  }

  /** The checks `handleLogin` makes, in order. */
  function LoginRules(email: string, password: string): seq<Rule> {
    [Rule(ValidateEmail(email), InvalidEmailMsg),
     Rule(ValidatePassword(password), ShortPasswordMsg)]
  }

  /** The checks `handleSignup` makes, in order. */
  function SignupRules(name: string, email: string, password: string, confirm: string): seq<Rule> {
    [Rule(!IsBlank(name), NameRequiredMsg),
     Rule(ValidateEmail(email), InvalidEmailMsg),
     Rule(ValidatePassword(password), ShortPasswordMsg),
     Rule(password == confirm, MismatchMsg)]
  }

  /** Login: an invalid email is reported even when the password is also too short;
      a short password is reported only for a valid email; nothing is reported
      exactly when both pass. */
  lemma LoginVerdict(email: string, password: string)
    ensures !ValidateEmail(email) ==> FirstFailure(LoginRules(email, password)) == Some(InvalidEmailMsg)
    ensures ValidateEmail(email) && !ValidatePassword(password) ==>
              FirstFailure(LoginRules(email, password)) == Some(ShortPasswordMsg)
    ensures FirstFailure(LoginRules(email, password)).None? <==>
              ValidateEmail(email) && ValidatePassword(password)
  {
    var rules := LoginRules(email, password);
    assert FailsFirstAt(rules, 0) || FailsFirstAt(rules, 1) || FirstFailure(rules).None?;
  }

  /** Signup: blank name, then email, then password, then confirmation; only the first
      failure is reported, and nothing is reported exactly when all four pass. */
  lemma SignupVerdict(name: string, email: string, password: string, confirm: string)
    ensures IsBlank(name) ==>
              FirstFailure(SignupRules(name, email, password, confirm)) == Some(NameRequiredMsg)
    ensures !IsBlank(name) && !ValidateEmail(email) ==>
              FirstFailure(SignupRules(name, email, password, confirm)) == Some(InvalidEmailMsg)
    ensures !IsBlank(name) && ValidateEmail(email) && !ValidatePassword(password) ==>
              FirstFailure(SignupRules(name, email, password, confirm)) == Some(ShortPasswordMsg)
    ensures !IsBlank(name) && ValidateEmail(email) && ValidatePassword(password) && password != confirm ==>
              FirstFailure(SignupRules(name, email, password, confirm)) == Some(MismatchMsg)
    ensures FirstFailure(SignupRules(name, email, password, confirm)).None? <==>
              !IsBlank(name) && ValidateEmail(email) && ValidatePassword(password) && password == confirm
  {
    var rules := SignupRules(name, email, password, confirm);
    if IsBlank(name) { assert FailsFirstAt(rules, 0); }
    else if !ValidateEmail(email) { assert FailsFirstAt(rules, 1); }
    else if !ValidatePassword(password) { assert FailsFirstAt(rules, 2); }
    else if password != confirm { assert FailsFirstAt(rules, 3); }
  }

  /** A name made only of white space (the empty name included) is refused. */
  lemma {:induction false} WhitespaceNameRefused(name: string, email: string, password: string, confirm: string)
    requires AllWhitespace(name)
    ensures FirstFailure(SignupRules(name, email, password, confirm)) == Some(NameRequiredMsg)
  {
    BlankIffAllWhitespace(name);
    SignupVerdict(name, email, password, confirm);
  }

  // ---------------------------------------------------------------------------
  // Server replies
  // ---------------------------------------------------------------------------

  /** The fields of the login reply the page reads. */
  datatype LoginData = LoginData(message: Option<string>, user: Option<User>, token: Option<string>)

  /** The fields of the register reply the page reads. */
  datatype SignupData = SignupData(message: Option<string>)

  datatype LoginOutcome = SignedIn(user: Option<User>, token: string) | LoginError(message: string)

  datatype SignupOutcome = Registered | SignupError(message: string)

  /** `localStorage.setItem` stores `String(value)`, so a missing token becomes "undefined". */
  function StoredText(v: Option<string>): string {
    if v.Some? then v.value else "undefined"
  }

  /** `handleLogin` gets past its status check and shows the success text: the reply
      is ok and its body decodes (a `null` body throws only on the next line). */
  predicate LoginSuccessShown(resp: Response<LoginData>) {
    resp.Reply? && IsOk(resp.status) && !resp.body.Malformed?
  }

  /** What `handleLogin` makes of the reply: the body is decoded before the status is
      looked at; a non-ok status raises the server's message or "Login failed"; reading
      a field of a `null` body raises a `TypeError`; and the handler shows an
      exception's message, or its own retry text when that is empty. */
  function LoginResult(resp: Response<LoginData>): (r: LoginOutcome)
    ensures r.SignedIn? <==> resp.Reply? && resp.body.Parsed? && IsOk(resp.status)
    ensures r.SignedIn? ==> r.user == resp.body.data.user && r.token == StoredText(resp.body.data.token)
    ensures r.LoginError? ==> r.message != ""
    ensures resp.Reply? && resp.body.Parsed? && !IsOk(resp.status) ==>
              r == LoginError(if Truthy(resp.body.data.message) then resp.body.data.message.value else LoginFailedMsg)
    ensures resp.Reply? && resp.body.JsonNull? ==>
              r == LoginError(NullRead(if IsOk(resp.status) then "user" else "message"))
    ensures resp.NetworkError? && resp.error != "" ==> r == LoginError(resp.error)
  {
    match resp
    case NetworkError(e) => LoginError(OrElse(e, LoginRetryMsg))
    case Reply(status, Malformed(e)) => LoginError(OrElse(e, LoginRetryMsg))
    case Reply(status, JsonNull) =>
      LoginError(NullRead(if IsOk(status) then "user" else "message"))
    case Reply(status, Parsed(data)) =>
      if !IsOk(status) then LoginError(OrElse(FieldOr(data.message, LoginFailedMsg), LoginRetryMsg))
      else SignedIn(data.user, StoredText(data.token))
  }

  /** What `handleSignup` makes of the reply, with the same shape as login; on success
      no field is read, so an ok `null` body registers too. */
  function SignupResult(resp: Response<SignupData>): (r: SignupOutcome)
    ensures r.Registered? <==> resp.Reply? && !resp.body.Malformed? && IsOk(resp.status)
    ensures r.SignupError? ==> r.message != ""
    ensures resp.Reply? && resp.body.Parsed? && !IsOk(resp.status) ==>
              r == SignupError(if Truthy(resp.body.data.message) then resp.body.data.message.value else SignupFailedMsg)
    ensures resp.Reply? && resp.body.JsonNull? && !IsOk(resp.status) ==> r == SignupError(NullRead("message"))
    ensures resp.NetworkError? && resp.error != "" ==> r == SignupError(resp.error)
  {
    match resp
    case NetworkError(e) => SignupError(OrElse(e, SignupRetryMsg))
    case Reply(status, Malformed(e)) => SignupError(OrElse(e, SignupRetryMsg))
    case Reply(status, JsonNull) =>
      if !IsOk(status) then SignupError(NullRead("message")) else Registered
    case Reply(status, Parsed(data)) =>
      if !IsOk(status) then SignupError(OrElse(FieldOr(data.message, SignupFailedMsg), SignupRetryMsg))
      else Registered
  }

  // ---------------------------------------------------------------------------
  // The page
  // ---------------------------------------------------------------------------

  datatype Form = LoginForm | SignupForm

  /** The bodies the page posts. */
  datatype Request =
    | LoginRequest(email: string, password: string)
    | RegisterRequest(name: string, email: string, password: string)

  /** The `Auth` component's state. `pending` is the handler suspended on its request
      (the `await` in flight); `signupTimers` counts the scheduled 3-second callbacks
      that switch back to the login form. */
  class AuthPage {
    var activeForm: Form
    var loading: bool
    var error: string
    var success: string
    var pending: Option<Form>
    var signupTimers: nat
    const store: SessionStore
    const storage: LocalStorage

    /** A request is in flight exactly while `loading` is set. */
    predicate Valid()
      reads this
    {
      loading <==> pending.Some?
    }

    /** Both submit buttons are `disabled={loading}`. */
    predicate SubmitEnabled()
      reads this
    {
      !loading
    }

    constructor (store: SessionStore, storage: LocalStorage)
      ensures Valid() && this.store == store && this.storage == storage
      ensures activeForm == LoginForm && !loading && error == "" && success == ""
      ensures pending == None && signupTimers == 0
    {
      this.store := store;
      this.storage := storage;
      activeForm := LoginForm;
      loading := false;
      error := "";
      success := "";
      pending := None;
      signupTimers := 0;
    }

    /** The "Sign up" / "Sign in" links switch forms and touch nothing else. */
    method ShowForm(f: Form)
      requires Valid()
      modifies this
      ensures Valid() && activeForm == f
      ensures loading == old(loading) && error == old(error) && success == old(success)
      ensures pending == old(pending) && signupTimers == old(signupTimers)
    {
      activeForm := f;
    }

    /** `handleLogin` up to its request: clears both messages, then rejects locally in
        the order of `LoginRules`, or sets `loading` and posts the credentials. */
    method SubmitLogin(email: string, password: string) returns (request: Option<Request>)
      requires Valid() && SubmitEnabled()
      modifies this
      ensures Valid() && success == ""
      ensures request.Some? <==> FirstFailure(LoginRules(email, password)).None?
      ensures request.Some? ==> request == Some(LoginRequest(email, password)) &&
                                error == "" && loading && pending == Some(LoginForm)
      ensures request.None? ==> error == FirstFailure(LoginRules(email, password)).value &&
                                !loading && pending == None
      ensures activeForm == old(activeForm) && signupTimers == old(signupTimers)
    {
      LoginVerdict(email, password);
      error := "";
      success := "";
      if !ValidateEmail(email) {
        error := InvalidEmailMsg;
        return None;
      }
      if !ValidatePassword(password) {
        error := ShortPasswordMsg;
        return None;
      }
      loading := true;
      pending := Some(LoginForm);
      request := Some(LoginRequest(email, password));
    }

    /** The rest of `handleLogin`, once the reply (or the failure) is in. An ok `null`
        body shows the success text and then the error raised by reading its `user`. */
    method LoginResponded(resp: Response<LoginData>)
      requires Valid() && pending == Some(LoginForm)
      modifies this, store, storage
      ensures Valid() && !loading && pending == None
      ensures activeForm == old(activeForm) && signupTimers == old(signupTimers)
      ensures success == if LoginSuccessShown(resp) then LoginSuccessMsg else old(success)
      ensures LoginResult(resp).SignedIn? ==>
                error == old(error) &&
                store.user == LoginResult(resp).user &&
                storage.items == old(storage.items)[AuthTokenKey := LoginResult(resp).token]
      ensures LoginResult(resp).LoginError? ==>
                error == LoginResult(resp).message &&
                store.user == old(store.user) && storage.items == old(storage.items)
    {
      if LoginSuccessShown(resp) {
        success := LoginSuccessMsg;
      }
      var outcome := LoginResult(resp);
      match outcome {
        case SignedIn(user, token) =>
          store.SetUser(user);
          storage.SetItem(AuthTokenKey, token);
        case LoginError(message) =>
          error := message;
      }
      loading := false;
      pending := None;
    }

    /** `handleSignup` up to its request: the four checks of `SignupRules` in order,
        then `loading` and the registration post (the name is sent untrimmed). */
    method SubmitSignup(name: string, email: string, password: string, confirm: string)
      returns (request: Option<Request>)
      requires Valid() && SubmitEnabled()
      modifies this
      ensures Valid() && success == ""
      ensures request.Some? <==> FirstFailure(SignupRules(name, email, password, confirm)).None?
      ensures request.Some? ==> request == Some(RegisterRequest(name, email, password)) &&
                                error == "" && loading && pending == Some(SignupForm)
      ensures request.None? ==> error == FirstFailure(SignupRules(name, email, password, confirm)).value &&
                                !loading && pending == None
      ensures activeForm == old(activeForm) && signupTimers == old(signupTimers)
    {
      ghost var verdict := FirstFailure(SignupRules(name, email, password, confirm));
      SignupVerdict(name, email, password, confirm);
      error := "";
      success := "";
      if IsBlank(name) {
        error := NameRequiredMsg;
        assert verdict == Some(error);
        return None;
      }
      if !ValidateEmail(email) {
        error := InvalidEmailMsg;
        assert verdict == Some(error);
        return None;
      }
      if !ValidatePassword(password) {
        error := ShortPasswordMsg;
        assert verdict == Some(error);
        return None;
      }
      if password != confirm {
        error := MismatchMsg;
        assert verdict == Some(error);
        return None;
      }
      assert verdict == None;
      loading := true;
      pending := Some(SignupForm);
      request := Some(RegisterRequest(name, email, password));
    }

    /** The rest of `handleSignup`: on success a confirmation and a scheduled switch back
        to the login form; on failure the error. Nothing is stored either way. */
    method SignupResponded(resp: Response<SignupData>)
      requires Valid() && pending == Some(SignupForm)
      modifies this
      ensures Valid() && !loading && pending == None
      ensures activeForm == old(activeForm)
      ensures SignupResult(resp).Registered? ==>
                success == SignupSuccessMsg && error == old(error) && signupTimers == old(signupTimers) + 1
      ensures SignupResult(resp).SignupError? ==>
                error == SignupResult(resp).message && success == old(success) &&
                signupTimers == old(signupTimers)
    {
      match SignupResult(resp) {
        case Registered =>
          success := SignupSuccessMsg;
          signupTimers := signupTimers + 1;
        case SignupError(message) =>
          error := message;
      }
      loading := false;
      pending := None;
    }

    /** The 3-second callback after a registration: back to the login form, message cleared. */
    method SignupTimerFired()
      requires Valid() && signupTimers > 0
      modifies this
      ensures Valid() && activeForm == LoginForm && success == ""
      ensures signupTimers == old(signupTimers) - 1
      ensures loading == old(loading) && error == old(error) && pending == old(pending)
    {
      activeForm := LoginForm;
      success := "";
      signupTimers := signupTimers - 1;
    }
  }
}
