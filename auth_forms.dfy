/** The sign-up form: ordered checks with one combined message, the registration it sends and
    the reset after success. */
module RegisterFormModel {
  import opened Wrappers
  import opened Text
  import AuthContextModel

  const Registered := "Registration successful! You can now sign in."
  const RegisterFallback := "Registration failed. Please try again."
  /** The TypeError thrown by calling a `register` the context does not offer. */
  const NotAFunction := "register is not a function"

  /** The checks of `validateForm`, each with the message it pushes. */
  datatype Problem = UsernameRequired | UsernameTooShort | UsernameTooLong | PasswordRequired | PasswordTooShort | RoleInvalid

  function Message(p: Problem): (m: string)
    ensures m != ""
  {
    match p
    case UsernameRequired => "Username is required"
    case UsernameTooShort => "Username must be at least 3 characters long"
    case UsernameTooLong => "Username must be less than 50 characters"
    case PasswordRequired => "Password is required"
    case PasswordTooShort => "Password must be at least 6 characters long"
    case RoleInvalid => "Invalid role selected"
  }

  function Messages(ps: seq<Problem>): (ms: seq<string>)
    ensures |ms| == |ps| && forall i :: 0 <= i < |ps| ==> ms[i] == Message(ps[i])
  {
    if ps == [] then [] else [Message(ps[0])] + Messages(ps[1..])
  }

  /** What `register` receives. */
  datatype Registration = Registration(username: string, password: string, role: string)

  datatype Field = UsernameField | PasswordField | RoleField

  function UsernameCheck(u: string): seq<Problem> {
    if Trim(u) == "" then [UsernameRequired]
    else if |u| < 3 then [UsernameTooShort]
    else if |u| > 50 then [UsernameTooLong]
    else []
  }

  function PasswordCheck(p: string): seq<Problem> {
    if Trim(p) == "" then [PasswordRequired] else if |p| < 6 then [PasswordTooShort] else []
  }

  function RoleCheck(r: string): seq<Problem> {
    if r != "USER" && r != "ADMIN" then [RoleInvalid] else []
  }

  /** The messages `validateForm` collects, in its order. */
  function Problems(u: string, p: string, r: string): seq<Problem> {
    UsernameCheck(u) + PasswordCheck(p) + RoleCheck(r)
  }

  /** Every check passes. The length rules apply to the untrimmed username. */
  predicate Acceptable(u: string, p: string, r: string) {
    Trim(u) != "" && 3 <= |u| <= 50 && Trim(p) != "" && |p| >= 6 && (r == "USER" || r == "ADMIN")
  }

  /** No message exactly when the form is acceptable. */
  lemma ProblemsEmptyIffAcceptable(u: string, p: string, r: string)
    ensures Problems(u, p, r) == [] <==> Acceptable(u, p, r)
  {
  }

  /** At most one message about the username and one about the password, each present exactly
      when its rule fails. */
  lemma ProblemsMeaning(u: string, p: string, r: string)
    ensures |UsernameCheck(u)| <= 1 && |PasswordCheck(p)| <= 1 && |Problems(u, p, r)| <= 3
    ensures UsernameRequired in Problems(u, p, r) <==> Trim(u) == ""
    ensures UsernameTooShort in Problems(u, p, r) <==> Trim(u) != "" && |u| < 3
    ensures UsernameTooLong in Problems(u, p, r) <==> Trim(u) != "" && |u| > 50
    ensures PasswordRequired in Problems(u, p, r) <==> Trim(p) == ""
    ensures PasswordTooShort in Problems(u, p, r) <==> Trim(p) != "" && |p| < 6
    ensures RoleInvalid in Problems(u, p, r) <==> r != "USER" && r != "ADMIN"
  {
    var nu, np := Trim(u) == "", Trim(p) == "";
    var U, P, R := UsernameCheck(u), PasswordCheck(p), RoleCheck(r);
    assert U == (if nu then [UsernameRequired] else if |u| < 3 then [UsernameTooShort] else if |u| > 50 then [UsernameTooLong] else []);
    assert P == (if np then [PasswordRequired] else if |p| < 6 then [PasswordTooShort] else []);
    assert Problems(u, p, r) == U + P + R;
  }

  /** A text with no blank at either end trims to itself. */
  lemma Word(s: string)
    requires s != [] && !IsSpace(s[0]) && !IsSpace(s[|s| - 1])
    ensures Trim(s) == s && Trim(s) != ""
  {
    TrimStartNoLeadingSpace(s);
    TrimEndNoTrailingSpace(s);
  }

  datatype FormState = FormState(username: string, password: string, role: string, loading: bool,
                                 error: string, success: string, registered: seq<Registration>,
                                 switchesScheduled: nat)

  /** The state `handleSubmit` leaves: the messages joined with ", " when a check fails;
      otherwise the registration with the trimmed username is sent, if the context offers
      `register`, and success resets the form and schedules the switch to sign-in. */
  function AfterSubmit(s: FormState, problems: seq<Problem>, register: Option<Reply>): FormState {
    if problems != [] then s.(loading := false, error := Join(Messages(problems), ", "), success := "")
    else AfterSend(s.(loading := true, error := "", success := ""), register)
  }

  /** The state once the checks pass: the registration with the trimmed username is sent, if
      the context offers `register`, and success resets the form and schedules the switch. */
  function AfterSend(s: FormState, register: Option<Reply>): FormState {
    var sent := s.registered + [Registration(Trim(s.username), s.password, s.role)];
    match register
    case None => s.(loading := false, error := NotAFunction)
    case Some(Done) => FormState("", "", "USER", false, s.error, Registered, sent, s.switchesScheduled + 1)
    case Some(Failed(m)) => s.(loading := false, error := if m != "" then m else RegisterFallback, registered := sent)
  }

  /** A submit never leaves the form loading. A form that fails a check shows a non-empty
      message naming every failure and sends nothing; an acceptable one sends exactly one
      registration when `register` exists, and its outcome decides between the reset with the
      success message and the failure's message. */
  lemma SubmitMeaning(s: FormState, register: Option<Reply>)
    ensures var t := AfterSubmit(s, Problems(s.username, s.password, s.role), register); !t.loading
    ensures var t := AfterSubmit(s, Problems(s.username, s.password, s.role), register);
            !Acceptable(s.username, s.password, s.role) ==>
              t.error == Join(Messages(Problems(s.username, s.password, s.role)), ", ") && t.error != ""
              && t.success == "" && t.registered == s.registered
              && (t.username, t.password, t.role) == (s.username, s.password, s.role)
    ensures var t := AfterSubmit(s, Problems(s.username, s.password, s.role), register);
            Acceptable(s.username, s.password, s.role) && register.None? ==>
              t.error == NotAFunction && t.registered == s.registered
    ensures var t := AfterSubmit(s, Problems(s.username, s.password, s.role), register);
            Acceptable(s.username, s.password, s.role) && register.Some? ==>
              t.registered == s.registered + [Registration(Trim(s.username), s.password, s.role)]
    ensures var t := AfterSubmit(s, Problems(s.username, s.password, s.role), register);
            Acceptable(s.username, s.password, s.role) && register == Some(Done) ==>
              t.success == Registered && t.error == "" && (t.username, t.password, t.role) == ("", "", "USER")
              && t.switchesScheduled == s.switchesScheduled + 1
    ensures var t := AfterSubmit(s, Problems(s.username, s.password, s.role), register);
            Acceptable(s.username, s.password, s.role) && register.Some? && register.value.Failed? ==>
              t.success == "" && t.error != "" && (t.username, t.password, t.role) == (s.username, s.password, s.role)
              && t.switchesScheduled == s.switchesScheduled
              && t.error == (if register.value.message != "" then register.value.message else RegisterFallback)
  {
    ProblemsEmptyIffAcceptable(s.username, s.password, s.role);
    var problems := Problems(s.username, s.password, s.role);
    if problems != [] {
      JoinNonEmpty(Messages(problems), ", ");
    }
  }

  class RegisterForm {
    var username: string
    var password: string
    var role: string
    var loading: bool
    var error: string
    var success: string
    /** The registrations handed to `register`. */
    var registered: seq<Registration>
    /** How many switches to the login form are scheduled (the two-second timer). */
    var switchesScheduled: nat

    constructor ()
      ensures username == "" && password == "" && role == "USER"
      ensures !loading && error == "" && success == "" && registered == [] && switchesScheduled == 0
    {
      username, password, role := "", "", "USER";
      loading, error, success, registered, switchesScheduled := false, "", "", [], 0;
    }

    /** `validateForm`. */
    method Validate() returns (errors: seq<Problem>)
      ensures errors == Problems(username, password, role)
    {
      errors := [];
      if Trim(username) == "" {
        errors := errors + [UsernameRequired];
      } else if |username| < 3 {
        errors := errors + [UsernameTooShort];
      } else if |username| > 50 {
        errors := errors + [UsernameTooLong];
      }
      assert errors == UsernameCheck(username);
      if Trim(password) == "" {
        errors := errors + [PasswordRequired];
      } else if |password| < 6 {
        errors := errors + [PasswordTooShort];
      }
      assert errors == UsernameCheck(username) + PasswordCheck(password);
      if role != "USER" && role != "ADMIN" {
        errors := errors + [RoleInvalid];
      }
    }

    /** The whole state of the form. */
    function State(): FormState
      reads this
    {
      FormState(username, password, role, loading, error, success, registered, switchesScheduled)
    }

    /** `handleSubmit`, with `register` the context's function (`None` when it offers none). */
    method Submit(register: Option<Reply>)
      modifies this
      ensures State() == AfterSubmit(old(State()), Problems(old(username), old(password), old(role)), register)
    {
      loading, error, success := true, "", "";
      var errors := Validate();
      if errors != [] {
        error := Join(Messages(errors), ", ");
        loading := false;
        return;
      }
      Send(register);
    }

    /** The part of `handleSubmit` after the checks pass. */
    method Send(register: Option<Reply>)
      modifies this
      ensures State() == AfterSend(old(State()), register)
    {
      match register {
        case None =>
          error := NotAFunction;
        case Some(reply) =>
          registered := registered + [Registration(Trim(username), password, role)];
          if reply.Done? {
            success := Registered;
            username, password, role := "", "", "USER";
            switchesScheduled := switchesScheduled + 1;
          } else {
            error := if reply.message != "" then reply.message else RegisterFallback;
          }
      }
      loading := false;
    }

    /** `handleChange`: the field takes the value, and both messages are cleared. */
    method Change(field: Field, value: string)
      modifies this`username, this`password, this`role, this`error, this`success
      ensures field == UsernameField ==> username == value && password == old(password) && role == old(role)
      ensures field == PasswordField ==> password == value && username == old(username) && role == old(role)
      ensures field == RoleField ==> role == value && username == old(username) && password == old(password)
      ensures error == "" && success == ""
    {
      match field {
        case UsernameField => username := value;
        case PasswordField => password := value;
        case RoleField => role := value;
      }
      error, success := "", "";
    }
  }

  /** As written the form takes `register` from the auth context, which offers none: a valid
      sign-up shows the TypeError's message and sends nothing. */
  method RegisterThroughContext() returns (error: string, sent: seq<Registration>)
    ensures error == NotAFunction && sent == []
  {
    var f := new RegisterForm();
    f.Change(UsernameField, "budi");
    f.Change(PasswordField, "rahasia");
    Word("budi");
    Word("rahasia");
    AuthContextModel.OffersNoRegister();
    var offered := if "register" in AuthContextModel.ContextMembers then Some(Done) else None;
    ghost var before := f.State();
    f.Submit(offered);
    SubmitMeaning(before, offered);
    error, sent := f.error, f.registered;
  }

  /** With a `register` provided, the same sign-up is sent trimmed and the form resets. */
  method RegisterWithProvider() returns (sent: seq<Registration>, username: string, success: string)
    ensures sent == [Registration("budi", "rahasia", "USER")] && username == "" && success == Registered
  {
    var f := new RegisterForm();
    f.Change(UsernameField, " budi");
    f.Change(PasswordField, "rahasia");
    assert Trim(" budi") == "budi" by {
      assert TrimStart(" budi") == TrimStart("budi");
      Word("budi");
    }
    Word("rahasia");
    ghost var before := f.State();
    f.Submit(Some(Done));
    SubmitMeaning(before, Some(Done));
    sent, username, success := f.registered, f.username, f.success;
  }
}

/** The sign-in form: three ordered checks where the first failure wins, then the login call. */
module LoginFormModel {
  import opened Wrappers
  import opened Text

  const UsernameRequired := "Username is required"
  const PasswordRequired := "Password is required"
  const PasswordTooShort := "Password must be at least 3 characters long"
  const LoginFallback := "Login failed. Please try again."

  /** What `login` receives. */
  datatype Credentials = Credentials(username: string, password: string)

  datatype Field = UsernameField | PasswordField

  /** The message of the first failing check, if any. */
  function FirstProblem(u: string, p: string): (m: Option<string>)
    ensures m.None? <==> Trim(u) != "" && Trim(p) != "" && |p| >= 3
    ensures Trim(u) == "" ==> m == Some(UsernameRequired)
    ensures Trim(u) != "" && Trim(p) == "" ==> m == Some(PasswordRequired)
    ensures Trim(u) != "" && Trim(p) != "" && |p| < 3 ==> m == Some(PasswordTooShort)
  {
    if Trim(u) == "" then Some(UsernameRequired)
    else if Trim(p) == "" then Some(PasswordRequired)
    else if |p| < 3 then Some(PasswordTooShort)
    else None
  }

  class LoginForm {
    var username: string
    var password: string
    var loading: bool
    var error: string
    /** The credentials handed to `login`. */
    var attempts: seq<Credentials>

    constructor ()
      ensures username == "" && password == "" && !loading && error == "" && attempts == []
    {
      username, password, loading, error, attempts := "", "", false, "", [];
    }

    /** `handleSubmit`, with `reply` what the context's `login` does: a failed check shows its
        message and changes nothing else; otherwise the trimmed username and the raw password
        are sent and a failure shows its message or the fallback. */
    method Submit(reply: Reply)
      modifies this`loading, this`error, this`attempts
      ensures FirstProblem(username, password).Some? ==>
                error == FirstProblem(username, password).value && attempts == old(attempts) && loading == old(loading)
      ensures FirstProblem(username, password).None? ==>
                attempts == old(attempts) + [Credentials(Trim(username), password)] && !loading
                && error == (if reply.Done? then "" else if reply.message != "" then reply.message else LoginFallback)
    {
      if Trim(username) == "" {
        error := UsernameRequired;
        return;
      }
      if Trim(password) == "" {
        error := PasswordRequired;
        return;
      }
      if |password| < 3 {
        error := PasswordTooShort;
        return;
      }
      loading, error := true, "";
      attempts := attempts + [Credentials(Trim(username), password)];
      if reply.Failed? {
        error := if reply.message != "" then reply.message else LoginFallback;
      }
      loading := false;
    }

    /** `handleChange`: the field takes the value and the error is cleared. */
    method Change(field: Field, value: string)
      modifies this`username, this`password, this`error
      ensures field == UsernameField ==> username == value && password == old(password)
      ensures field == PasswordField ==> password == value && username == old(username)
      ensures error == ""
    {
      if field == UsernameField {
        username := value;
      } else {
        password := value;
      }
      error := "";
    }
  }

  /** A blank username is reported before anything about the password, and a password of three
      characters is long enough. */
  lemma CheckOrder(p: string)
    ensures FirstProblem("", p) == Some(UsernameRequired)
    ensures FirstProblem("ani", "abc") == None
  {
    assert Trim("") == "";
    assert Trim("ani") == "ani" by {
      TrimStartNoLeadingSpace("ani");
      TrimEndNoTrailingSpace("ani");
    }
    assert Trim("abc") == "abc" by {
      TrimStartNoLeadingSpace("abc");
      TrimEndNoTrailingSpace("abc");
    }
  }
}
