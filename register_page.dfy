/** The sign-up page (app/register/page.tsx): a client-side password check,
    account creation followed by an automatic login, and the assembly of the
    server's per-field validation errors into one message. */
module RegisterPage {
  import opened Common

  /** `POST /api/v1/auth/users/` */
  datatype CreateUserRequest = CreateUserRequest(username: string, email: string, password: string)

  /** `POST /api/v1/auth/jwt/create/` */
  datatype LoginRequest = LoginRequest(username: string, password: string)

  /** The username and password `handleSubmit` closed over, still used for
      the login after the account request has returned. */
  datatype PendingRegister = PendingRegister(username: string, password: string)

  /** The token pair of a login reply; `access` may be missing or empty. */
  datatype TokenReply = TokenReply(access: Option<string>, refresh: Option<string>)

  /** A rejection: no response body, or a body whose `username`, `email` and
      `password` fields, when present, are lists of messages. */
  datatype RegisterError =
    | NoResponseData
    | ErrorData(username: Option<seq<string>>, email: Option<seq<string>>, password: Option<seq<string>>)

  const MismatchError: string := "两次输入的密码不一致！"
  const GenericError: string := "注册失败，请重试。"
  const FailureLabel: string := "Registration failed"

  /** One pushed message when the field is present (an empty list is truthy). */
  function FieldMessage(prefix: string, field: Option<seq<string>>): (r: seq<string>)
    ensures r == [] <==> field.None?
    ensures field.Some? ==> r == [prefix + FirstOrUndefined(field.value)]
  {
    match field
    case Some(list) => [prefix + FirstOrUndefined(list)]
    case None => []
  }

  /** The pushes, username first, then email, then password. */
  function FieldMessages(e: RegisterError): (r: seq<string>)
    ensures e.NoResponseData? ==> r == []
    ensures e.ErrorData? ==> r == FieldMessage("用户名: ", e.username) + FieldMessage("邮箱: ", e.email) + FieldMessage("密码: ", e.password)
    ensures |r| <= 3
  {
    match e
    case NoResponseData => []
    case ErrorData(u, m, p) => FieldMessage("用户名: ", u) + FieldMessage("邮箱: ", m) + FieldMessage("密码: ", p)
  }

  /** The message shown after a failed registration. */
  function ErrorText(e: RegisterError): (r: string)
    ensures FieldMessages(e) == [] ==> r == GenericError
    ensures FieldMessages(e) != [] ==> r == Join(FieldMessages(e), " ")
  {
    var msgs := FieldMessages(e);
    if |msgs| > 0 then Join(msgs, " ") else GenericError
  }

  /** The generic message appears exactly when no known field was reported,
      and a reported username always leads the text. */
  lemma ErrorTextCases(e: RegisterError)
    ensures FieldMessages(e) == [] <==> e.NoResponseData? || (e.username.None? && e.email.None? && e.password.None?)
    ensures e.ErrorData? && e.username.Some? ==> StartsWith(ErrorText(e), "用户名: " + FirstOrUndefined(e.username.value))
  {
    if e.ErrorData? && e.username.Some? {
      JoinStartsWithFirst(FieldMessages(e), " ");
    }
  }

  /** Two reported fields are joined by a single space. */
  lemma TwoFieldErrors(u: string, p: string)
    ensures ErrorText(ErrorData(Some([u]), None, Some([p]))) == "用户名: " + u + " " + "密码: " + p
  {
    var msgs := FieldMessages(ErrorData(Some([u]), None, Some([p])));
    assert msgs == ["用户名: " + u, "密码: " + p];
    assert msgs[1..] == ["密码: " + p];
  }

  class RegisterPage {
    var username: string
    var email: string
    var password: string
    var passwordConfirm: string
    var error: Option<string>

    constructor ()
      ensures username == "" && email == "" && password == "" && passwordConfirm == "" && error == None
    {
      username, email, password, passwordConfirm := "", "", "", "";
      error := None;
    }

    method EditFields(username: string, email: string, password: string, passwordConfirm: string)
      modifies this
      ensures this.username == username && this.email == email
      ensures this.password == password && this.passwordConfirm == passwordConfirm
      ensures error == old(error)
    {
      this.username, this.email, this.password, this.passwordConfirm := username, email, password, passwordConfirm;
    }

    /** `handleSubmit` up to the first await: the error is cleared, then a
        mismatched confirmation stops everything with its own message.
        Otherwise the account request goes out, and the username and
        password of this render are kept for the login that follows.
        The browser submits the form only with every `required` input filled. */
    method BeginSubmit() returns (request: Option<CreateUserRequest>, pending: Option<PendingRegister>)
      requires username != "" && email != "" && password != "" && passwordConfirm != ""
      modifies this
      ensures username == old(username) && email == old(email)
      ensures password == old(password) && passwordConfirm == old(passwordConfirm)
      ensures request.None? <==> password != passwordConfirm
      ensures pending.None? <==> password != passwordConfirm
      ensures password != passwordConfirm ==> error == Some(MismatchError)
      ensures password == passwordConfirm ==>
        && error == None
        && request == Some(CreateUserRequest(username, email, password))
        && pending == Some(PendingRegister(username, password))
    {
      error := None;
      if password != passwordConfirm {
        error := Some(MismatchError);
        return None, None;
      }
      request := Some(CreateUserRequest(username, email, password));
      pending := Some(PendingRegister(username, password));
    }

    /** After the account request: success logs in with the credentials the
        handler captured, whatever the inputs hold now; failure lands in the
        shared catch block. */
    method CompleteCreate(pending: PendingRegister, outcome: Outcome<(), RegisterError>) returns (login: Option<LoginRequest>, effects: seq<Effect>)
      modifies this
      ensures username == old(username) && email == old(email)
      ensures password == old(password) && passwordConfirm == old(passwordConfirm)
      ensures outcome.Success? ==>
        login == Some(LoginRequest(pending.username, pending.password)) && error == old(error) && effects == []
      ensures outcome.Failure? ==> login == None && error == Some(ErrorText(outcome.err)) && effects == [LogError(FailureLabel)]
    {
      if outcome.Success? {
        login := Some(LoginRequest(pending.username, pending.password));
        effects := [];
      } else {
        login := None;
        effects := [LogError(FailureLabel)];
        error := Some(ErrorText(outcome.err));
      }
    }

    /** After the login request: a truthy access token is handed to the
        session (`tokens`) and the user goes home; a reply without one does
        nothing at all; a failure is reported like a registration error. */
    method CompleteLogin(outcome: Outcome<TokenReply, RegisterError>)
      returns (tokens: Option<(string, Option<string>)>, effects: seq<Effect>)
      modifies this
      ensures username == old(username) && email == old(email)
      ensures password == old(password) && passwordConfirm == old(passwordConfirm)
      ensures outcome.Success? && Truthy(outcome.payload.access) ==>
        tokens == Some((outcome.payload.access.value, outcome.payload.refresh)) && effects == [Navigate("/")] && error == old(error)
      ensures outcome.Success? && !Truthy(outcome.payload.access) ==> tokens == None && effects == [] && error == old(error)
      ensures outcome.Failure? ==> tokens == None && error == Some(ErrorText(outcome.err)) && effects == [LogError(FailureLabel)]
    {
      tokens := None;
      effects := [];
      if outcome.Success? {
        if Truthy(outcome.payload.access) {
          tokens := Some((outcome.payload.access.value, outcome.payload.refresh));
          effects := [Navigate("/")];
        }
      } else {
        effects := [LogError(FailureLabel)];
        error := Some(ErrorText(outcome.err));
      }
    }
  }

  /** Editing the inputs while the account request is in flight does not
      change the credentials of the automatic login. */
  method EditDuringCreateScenario()
  {
    var page := new RegisterPage();
    page.EditFields("a", "e", "pw", "pw");
    var req, pending := page.BeginSubmit();
    page.EditFields("b", "e", "qq", "qq");
    var login, effects := page.CompleteCreate(pending.value, Success(()));
    assert login == Some(LoginRequest("a", "pw"));
  }
}
