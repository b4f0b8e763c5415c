/**
 * The authentication controller (auth.js): input validation before any
 * backend call, the signup "already exists" heuristic, and the store
 * transitions of a successful sign-in, of sign-out and of the session check.
 */
module Auth {
  import opened Remote
  import opened Store

  /** The code points `String.prototype.trim` strips: ECMAScript WhiteSpace and LineTerminator. */
  predicate IsTrimmable(c: char)
  {
    || c as int in {0x09, 0x0A, 0x0B, 0x0C, 0x0D, 0x20, 0xA0, 0x1680, 0x2028, 0x2029, 0x202F, 0x205F, 0x3000, 0xFEFF}
    || 0x2000 <= c as int <= 0x200A
  }

  /** Every character of `s` is trimmable (the empty string included). */
  predicate Blank(s: string)
  {
    forall i :: 0 <= i < |s| ==> IsTrimmable(s[i])
  }

  /** `s` without its leading trimmable characters. */
  function TrimStart(s: string): (r: string)
    ensures |r| <= |s| && r == s[|s| - |r|..]
    ensures r == [] || !IsTrimmable(r[0])
    ensures forall i :: 0 <= i < |s| - |r| ==> IsTrimmable(s[i])
  {
    if s != [] && IsTrimmable(s[0]) then TrimStart(s[1..]) else s
  }

  /** `s` without its trailing trimmable characters. */
  function TrimEnd(s: string): (r: string)
    ensures |r| <= |s| && r == s[..|r|]
    ensures r == [] || !IsTrimmable(r[|r| - 1])
    ensures forall i :: |r| <= i < |s| ==> IsTrimmable(s[i])
  {
    if s != [] && IsTrimmable(s[|s| - 1]) then TrimEnd(s[..|s| - 1]) else s
  }

  /**
   * `s.trim()`: the slice of `s` left after its blank prefix and blank suffix;
   * empty exactly when `s` is blank, otherwise starting and ending on a kept character.
   */
  function Trim(s: string): (r: string)
    ensures |r| <= |s|
    ensures |s| - |TrimStart(s)| + |r| <= |s|
    ensures r == s[|s| - |TrimStart(s)|..|s| - |TrimStart(s)| + |r|]
    ensures Blank(s[..|s| - |TrimStart(s)|])
    ensures Blank(s[|s| - |TrimStart(s)| + |r|..])
    ensures r == [] <==> Blank(s)
    ensures r != [] ==> !IsTrimmable(r[0]) && !IsTrimmable(r[|r| - 1])
  {
    var t := TrimStart(s);
    var r := TrimEnd(t);
    PrefixOfSuffix(s, t, r);
    BlankBeforeTrim(s, t);
    BlankAfterTrim(s, t, r);
    r
  }

  /** What `TrimStart` drops is blank. */
  lemma BlankBeforeTrim(s: string, t: string)
    requires t == TrimStart(s)
    ensures Blank(s[..|s| - |t|])
  {
  }

  /** What `TrimEnd` drops after `TrimStart` is blank. */
  lemma BlankAfterTrim(s: string, t: string, r: string)
    requires t == TrimStart(s) && r == TrimEnd(t)
    ensures Blank(s[|s| - |t| + |r|..])
  {
  }

  /** A prefix `r` of a suffix `t` of `s` is the slice of `s` where `t` starts. */
  lemma PrefixOfSuffix(s: string, t: string, r: string)
    requires |t| <= |s| && t == s[|s| - |t|..]
    requires |r| <= |t| && r == t[..|r|]
    ensures r == s[|s| - |t|..|s| - |t| + |r|]
  {
  }

  /** Trimming twice is trimming once. */
  lemma TrimIdempotent(s: string)
    ensures Trim(Trim(s)) == Trim(s)
  {
    var r := Trim(s);
    if r != [] {
      assert TrimStart(r) == r;
      assert TrimEnd(r) == r;
    }
  }

  /** `s.length`: the number of UTF-16 code units, two for a code point above U+FFFF. */
  function Utf16Length(s: string): (n: nat)
    ensures n == |s| + |set i | 0 <= i < |s| && s[i] as int > 0xFFFF|
    ensures |s| <= n <= 2 * |s|
    ensures (forall i :: 0 <= i < |s| ==> s[i] as int <= 0xFFFF) ==> n == |s|
  {
    if s == [] then 0
    else
      var p := s[..|s| - 1];
      var last := s[|s| - 1];
      var astral := set i | 0 <= i < |s| && s[i] as int > 0xFFFF;
      var before := set i | 0 <= i < |p| && p[i] as int > 0xFFFF;
      assert astral == before + (if last as int > 0xFFFF then {|s| - 1} else {});
      Utf16Length(p) + (if last as int > 0xFFFF then 2 else 1)
  }

  const MinPasswordLength: nat := 6

  /** What the form handlers decide before touching the backend. */
  datatype Verdict = NeedFields | ShortPassword | CallNetwork(email: string, password: string)

  /** `handleLogin`'s checks: the e-mail is trimmed, the password taken as typed, neither may be empty. */
  function LoginVerdict(rawEmail: string, password: string): (v: Verdict)
    ensures v != ShortPassword
    ensures v == NeedFields <==> Blank(rawEmail) || password == []
    ensures v.CallNetwork? ==> v.email == Trim(rawEmail) && v.email != [] && v.password == password
  {
    var email := Trim(rawEmail);
    if email == [] || password == [] then NeedFields else CallNetwork(email, password)
  }

  /** `handleSignup`'s checks: the emptiness check first, then at least six UTF-16 code units of password. */
  function SignupVerdict(rawEmail: string, password: string): (v: Verdict)
    ensures v == NeedFields <==> Blank(rawEmail) || password == []
    ensures v == ShortPassword <==>
      !Blank(rawEmail) && password != [] && Utf16Length(password) < MinPasswordLength
    ensures v.CallNetwork? ==>
      v.email == Trim(rawEmail) && v.password == password && Utf16Length(password) >= MinPasswordLength
  {
    var email := Trim(rawEmail);
    if email == [] || password == [] then NeedFields
    else if Utf16Length(password) < MinPasswordLength then ShortPassword
    else CallNetwork(email, password)
  }

  /** Signup accepts only what login accepts, and then sends the same credentials. */
  lemma SignupAcceptsOnlyLoginAccepted(rawEmail: string, password: string)
    requires SignupVerdict(rawEmail, password).CallNetwork?
    ensures LoginVerdict(rawEmail, password) == SignupVerdict(rawEmail, password)
  {
  }

  /** `data.user?.identities?.length === 0`: the backend's sign that the address is already registered. */
  function AlreadyRegistered(user: Option<User>): (b: bool)
    ensures b <==> user.Some? && user.value.identities.Some? && |user.value.identities.value| == 0
  {
    user.Some? && user.value.identities == Some([])
  }

  /** The text shown in the form's error line. */
  datatype Notice = FillInFields | PasswordTooShort | UserExists | Failure(message: string)
  {
    function Text(): string
    {
      match this
      case FillInFields => "Заполните email и пароль"
      case PasswordTooShort => "Пароль должен быть минимум 6 символов"
      case UserExists => "Пользователь с таким email уже существует"
      case Failure(message) => message
    }
  }

  const LoginFallback: string := "Ошибка входа"
  const SignupFallback: string := "Ошибка регистрации"
  /** The message of the TypeError thrown by reading `user.email` when the user is null. */
  const NullUserMessage: string := "Cannot read properties of null (reading 'email')"
  const LogoutAlertPrefix: string := "Ошибка при выходе: "

  /** `error.message || fallback`. */
  function MessageOr(message: string, fallback: string): (text: string)
    ensures message != [] ==> text == message
    ensures message == [] ==> text == fallback
  {
    if message != [] then message else fallback
  }

  /** What a form handler leaves on screen: an error line, or the dialog dismissed. */
  datatype AuthOutcome = Shown(notice: Notice) | Dismissed(mainApp: bool)

  /** `handleSuccessfulAuth`'s result: it threw on a null user, or it ran the load. */
  datatype Entry = NullUser | Entered(mainApp: bool)

  datatype SignOutReply = Returned(error: Option<string>) | Threw(message: string)

  datatype LogoutOutcome = SignedOutScreen | Alerted(text: string)

  /**
   * `handleSuccessfulAuth(user)`: store the user first, then load that user's
   * data; the main application opens only when the load reports success.
   */
  method HandleSuccessfulAuth(store: AppStore, user: Option<User>, replies: LoadReplies)
    returns (entry: Entry, calls: seq<Request>)
    modifies store`user, store`cars, store`bookings, store`transactions, store`settings
    ensures user.None? ==> entry == NullUser && calls == [] && store.Snap() == old(store.Snap())
    ensures user.Some? ==>
      var r := Load(old(store.Snap()).(user := user), user.value.id, replies);
      store.Snap() == r.state && entry == Entered(r.ok) && calls == r.calls
  {
    if user.None? { return NullUser, []; }
    store.user := user;
    var ok;
    ok, calls := store.LoadUserData(user.value.id, replies);
    entry := Entered(ok);
  }

  /** `handleLogin()`: validate, sign in, then enter; every failure becomes an error line. */
  method Login(store: AppStore, rawEmail: string, password: string,
               signIn: Remote<Option<User>>, replies: LoadReplies)
    returns (outcome: AuthOutcome, calls: seq<Request>)
    modifies store`user, store`cars, store`bookings, store`transactions, store`settings
    ensures outcome.Shown? ==> outcome.notice.Text() != []
    ensures LoginVerdict(rawEmail, password) == NeedFields ==>
      outcome == Shown(FillInFields) && calls == [] && store.Snap() == old(store.Snap())
    ensures LoginVerdict(rawEmail, password).CallNetwork? ==>
      |calls| >= 1 && calls[0] == SignIn(Trim(rawEmail), password)
    ensures LoginVerdict(rawEmail, password).CallNetwork? && signIn.Error? ==>
      && outcome == Shown(Failure(MessageOr(signIn.message, LoginFallback)))
      && |calls| == 1 && store.Snap() == old(store.Snap())
    ensures LoginVerdict(rawEmail, password).CallNetwork? && signIn == Reply(None) ==>
      outcome == Shown(Failure(NullUserMessage)) && |calls| == 1 && store.Snap() == old(store.Snap())
    ensures LoginVerdict(rawEmail, password).CallNetwork? && signIn.Reply? && signIn.value.Some? ==>
      var u := signIn.value.value;
      var r := Load(old(store.Snap()).(user := Some(u)), u.id, replies);
      store.Snap() == r.state && outcome == Dismissed(r.ok) && calls == [calls[0]] + r.calls
  {
    var verdict := LoginVerdict(rawEmail, password);
    if !verdict.CallNetwork? { return Shown(FillInFields), []; }
    calls := [SignIn(verdict.email, verdict.password)];
    if signIn.Error? {
      return Shown(Failure(MessageOr(signIn.message, LoginFallback))), calls;
    }
    var entry, loadCalls := HandleSuccessfulAuth(store, signIn.value, replies);
    calls := calls + loadCalls;
    if entry.NullUser? { return Shown(Failure(NullUserMessage)), calls; }
    outcome := Dismissed(entry.mainApp);
  }

  /**
   * `handleSignup()`: validate, sign up, refuse a known address, then enter.
   * `origin` is the page's `window.location.origin`, sent as the confirmation link target.
   */
  method Signup(store: AppStore, rawEmail: string, password: string, origin: string,
                signUp: Remote<Option<User>>, replies: LoadReplies)
    returns (outcome: AuthOutcome, calls: seq<Request>)
    modifies store`user, store`cars, store`bookings, store`transactions, store`settings
    ensures outcome.Shown? ==> outcome.notice.Text() != []
    ensures SignupVerdict(rawEmail, password) == NeedFields ==>
      outcome == Shown(FillInFields) && calls == [] && store.Snap() == old(store.Snap())
    ensures SignupVerdict(rawEmail, password) == ShortPassword ==>
      outcome == Shown(PasswordTooShort) && calls == [] && store.Snap() == old(store.Snap())
    ensures SignupVerdict(rawEmail, password).CallNetwork? ==>
      |calls| >= 1 && calls[0] == SignUp(Trim(rawEmail), password, origin)
    ensures SignupVerdict(rawEmail, password).CallNetwork? && signUp.Error? ==>
      && outcome == Shown(Failure(MessageOr(signUp.message, SignupFallback)))
      && |calls| == 1 && store.Snap() == old(store.Snap())
    ensures SignupVerdict(rawEmail, password).CallNetwork? && signUp.Reply? && AlreadyRegistered(signUp.value) ==>
      outcome == Shown(UserExists) && |calls| == 1 && store.Snap() == old(store.Snap())
    ensures SignupVerdict(rawEmail, password).CallNetwork? && signUp == Reply(None) ==>
      outcome == Shown(Failure(NullUserMessage)) && |calls| == 1 && store.Snap() == old(store.Snap())
    ensures SignupVerdict(rawEmail, password).CallNetwork? && signUp.Reply? && signUp.value.Some? &&
            !AlreadyRegistered(signUp.value) ==>
      var u := signUp.value.value;
      var r := Load(old(store.Snap()).(user := Some(u)), u.id, replies);
      store.Snap() == r.state && outcome == Dismissed(r.ok) && calls == [calls[0]] + r.calls
  {
    var verdict := SignupVerdict(rawEmail, password);
    if verdict == NeedFields { return Shown(FillInFields), []; }
    if verdict == ShortPassword { return Shown(PasswordTooShort), []; }
    calls := [SignUp(verdict.email, verdict.password, origin)];
    if signUp.Error? {
      return Shown(Failure(MessageOr(signUp.message, SignupFallback))), calls;
    }
    if AlreadyRegistered(signUp.value) { return Shown(UserExists), calls; }
    var entry, loadCalls := HandleSuccessfulAuth(store, signUp.value, replies);
    calls := calls + loadCalls;
    if entry.NullUser? { return Shown(Failure(NullUserMessage)), calls; }
    outcome := Dismissed(entry.mainApp);
  }

  /**
   * `logout()`: once sign-out returns (its `error` field is not looked at) the
   * user and the three lists are cleared and the settings kept; if it throws,
   * the store is left alone and the error is alerted.
   */
  method Logout(store: AppStore, reply: SignOutReply) returns (outcome: LogoutOutcome, calls: seq<Request>)
    modifies store`user, store`cars, store`bookings, store`transactions
    ensures calls == [SignOut]
    ensures reply.Returned? ==>
      && outcome == SignedOutScreen
      && store.Snap() == Snapshot(None, [], [], [], old(store.settings))
    ensures reply.Threw? ==>
      outcome == Alerted(LogoutAlertPrefix + reply.message) && store.Snap() == old(store.Snap())
  {
    calls := [SignOut];
    if reply.Threw? { return Alerted(LogoutAlertPrefix + reply.message), calls; }
    store.user := None;
    store.cars := [];
    store.bookings := [];
    store.transactions := [];
    outcome := SignedOutScreen;
  }

  /**
   * `checkAuth()`: a session error or no session answers false without
   * touching the store; a session enters with its user and answers true
   * whatever the load reports, unless entering threw on a null user.
   */
  method CheckAuth(store: AppStore, session: Remote<Option<Session>>, replies: LoadReplies)
    returns (signedIn: bool, calls: seq<Request>)
    modifies store`user, store`cars, store`bookings, store`transactions, store`settings
    ensures |calls| >= 1 && calls[0] == GetSession
    ensures session.Error? || session.value.None? ==>
      !signedIn && |calls| == 1 && store.Snap() == old(store.Snap())
    ensures session.Reply? && session.value.Some? && session.value.value.user.None? ==>
      !signedIn && |calls| == 1 && store.Snap() == old(store.Snap())
    ensures session.Reply? && session.value.Some? && session.value.value.user.Some? ==>
      var u := session.value.value.user.value;
      var r := Load(old(store.Snap()).(user := Some(u)), u.id, replies);
      signedIn && store.Snap() == r.state && calls == [GetSession] + r.calls
  {
    calls := [GetSession];
    if session.Error? || session.value.None? { return false, calls; }
    var entry, loadCalls := HandleSuccessfulAuth(store, session.value.value.user, replies);
    calls := calls + loadCalls;
    signedIn := entry.Entered?;
  }
}
