/** The login page: its two-field form, the ordered chain of checks run
    before the credentials are sent, and the session record built from the
    reply. */
module Login {
  import opened Domain
  import opened Text
  import opened Auth
  import Register

  datatype LoginForm = LoginForm(email: string, password: string)

  const InitialForm := LoginForm("", "")

  /** The checks of `handleSubmit`, in the order they run. */
  datatype LoginError = MissingCredentials | BadEmail | ShortPassword

  function Rank(e: LoginError): nat {
    match e
    case MissingCredentials => 0
    case BadEmail => 1
    case ShortPassword => 2
  }

  predicate Violates(f: LoginForm, e: LoginError) {
    match e
    case MissingCredentials => f.email == "" || f.password == ""
    case BadEmail => !AcceptableEmail(f.email)
    case ShortPassword => |f.password| < 6
  }

  /** The check that stops `handleSubmit`: none when the form passes every
      check, otherwise a failed check such that every earlier check passed. */
  function FirstLoginError(f: LoginForm): (r: Option<LoginError>)
    ensures r.None? <==> forall e :: !Violates(f, e)
    ensures r.Some? ==> Violates(f, r.value) && forall e :: Rank(e) < Rank(r.value) ==> !Violates(f, e)
  {
    if Violates(f, MissingCredentials) then Some(MissingCredentials)
    else if Violates(f, BadEmail) then Some(BadEmail)
    else if Violates(f, ShortPassword) then Some(ShortPassword)
    else None
  }

  function Message(e: LoginError): string {
    match e
    case MissingCredentials => "❌ Email and password are required"
    case BadEmail => "❌ Email must be 5-254 characters and valid"
    case ShortPassword => "❌ Password must be at least 6 characters"
  }

  /** Credentials pass exactly when the e-mail is valid and 5 to 254
      characters long and the password has at least 6 characters. */
  lemma AcceptedExactly(f: LoginForm)
    ensures FirstLoginError(f).None? <==> AcceptableEmail(f.email) && |f.password| >= 6
  {
    if FirstLoginError(f).None? {
      assert !Violates(f, BadEmail) && !Violates(f, ShortPassword);
    }
  }

  /** Whoever could register can log in with the same credentials: a
      registration form that passes its checks has an e-mail and password
      that pass the login checks, and the two pages word their shared
      checks identically. */
  lemma RegisteredCredentialsAccepted(f: Register.RegisterForm)
    requires Register.FirstRegisterError(f).None?
    ensures FirstLoginError(LoginForm(f.email, f.password)).None?
    ensures Message(BadEmail) == Register.Message(Register.BadEmail)
    ensures Message(ShortPassword) == Register.Message(Register.ShortPassword)
  {
    Register.AcceptedExactly(f);
    AcceptedExactly(LoginForm(f.email, f.password));
  }

  /** What the login call resolves with: `{ token, email, role, companyId? }`. */
  datatype LoginReply = LoginReply(token: string, email: string, role: Role, companyId: Option<seq<int>>)

  /** The user record `handleSubmit` hands to the session:
      `{ email, role, companyId: response.companyId || [] }`. */
  function SessionUser(reply: LoginReply): (u: User)
    ensures u.email == reply.email && u.role == reply.role
    ensures u.companyId.Some?
    ensures reply.companyId.Some? ==> u.companyId == reply.companyId
    ensures reply.companyId.None? ==> u.companyId == Some([])
  {
    User(reply.email, reply.role, Some(reply.companyId.GetOr([])))
  }

  /** The text inputs whose `name` `handleChange` writes. */
  datatype Field = Email | Password

  class LoginPage {
    var formData: LoginForm
    var error: Option<string>
    var route: Option<string>
    /** The credentials sent to the login endpoint, in order. */
    var sent: seq<LoginForm>

    constructor ()
      ensures formData == InitialForm && error == None && route == None && sent == []
    {
      formData, error, route, sent := InitialForm, None, None, [];
    }

    /** `handleChange`. */
    method Change(field: Field, value: string)
      modifies this`formData
      ensures formData == match field
        case Email => old(formData).(email := value)
        case Password => old(formData).(password := value)
    {
      match field
      case Email => formData := formData.(email := value);
      case Password => formData := formData.(password := value);
    }

    /** `handleSubmit`: the first failed check sets its message and nothing
        is sent; credentials that pass are sent, and a successful reply
        signs the user in with the record built from it and goes home. */
    method Submit(session: Session, reply: Response<LoginReply>)
      modifies this`error, this`route, this`sent, session
      ensures FirstLoginError(old(formData)).Some? ==>
        && error == Some(Message(FirstLoginError(old(formData)).value))
        && sent == old(sent) && route == old(route) && session.State() == old(session.State())
      ensures FirstLoginError(old(formData)).None? ==> sent == old(sent) + [old(formData)]
      ensures FirstLoginError(old(formData)).None? && reply.Ok? ==>
        && session.State() == Step(old(session.State()), LogIn(SessionUser(reply.value), reply.value.token))
        && route == Some("/") && error == old(error)
      ensures FirstLoginError(old(formData)).None? && reply.Err? ==>
        && error == Some(ThrownText(reply, "❌ Login failed"))
        && route == old(route) && session.State() == old(session.State())
    {
      var failed := FirstLoginError(formData);
      if failed.Some? {
        error := Some(Message(failed.value));
        return;
      }
      sent := sent + [formData];
      if reply.Ok? {
        session.Login(SessionUser(reply.value), reply.value.token);
        route := Some("/");
      } else {
        error := Some(ThrownText(reply, "❌ Login failed"));
      }
    }
  }

  /** A successful login leaves the session signed in with the reply's
      token both in memory and persisted, whatever state it was in. */
  lemma LoginLeavesSessionSignedIn(s: SessionState, reply: LoginReply)
    ensures var t := Step(s, LogIn(SessionUser(reply), reply.token));
      && t.user == Some(SessionUser(reply)) && t.token == Some(reply.token)
      && Synced(t) && Consistent(t)
  {
    RunSyncedAndConsistent(s, [LogIn(SessionUser(reply), reply.token)]);
  }
}
