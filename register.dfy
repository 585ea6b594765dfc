/** The registration page (Register.jsx): ordered length checks on the
    username and password, the submit gate and the form's state. The server
    is a parameter. */
module Register {
  import opened Common

  datatype Credentials = Credentials(username: string, password: string)

  /** The form's inputs, by their name attribute. */
  datatype RegisterField = Username | Password

  const ShortUsernameMessage := "Nome de usuário deve ter pelo menos 3 caracteres"
  const ShortPasswordMessage := "Senha deve ter pelo menos 6 caracteres"
  const RegisteredMessage := "Usuário registrado com sucesso!"
  const RegisterFailedMessage := "Erro ao registrar usuário. Tente novamente."

  const MinUsernameLength := 3
  const MinPasswordLength := 6

  /** validateForm: None when the form is valid, otherwise the message of
      the first check that fails, the username being checked first. Lengths
      are JavaScript's, in UTF-16 code units. */
  function Validate(c: Credentials): (r: Option<string>)
    ensures r.None? <==> Utf16Length(c.username) >= MinUsernameLength && Utf16Length(c.password) >= MinPasswordLength
    ensures Utf16Length(c.username) < MinUsernameLength ==> r == Some(ShortUsernameMessage)
    ensures Utf16Length(c.username) >= MinUsernameLength && Utf16Length(c.password) < MinPasswordLength ==> r == Some(ShortPasswordMessage)
  {
    if Utf16Length(c.username) < MinUsernameLength then Some(ShortUsernameMessage)
    else if Utf16Length(c.password) < MinPasswordLength then Some(ShortPasswordMessage)
    else None
  }

  /** A character outside the Basic Multilingual Plane counts twice: a
      two-character username made of one emoji and a letter is long enough. */
  lemma AstralUsernameAccepted()
    ensures Validate(Credentials("\U{1F600}a", "secret")).None?
  {
    assert Utf16Length("\U{1F600}a") == 3;
    assert Utf16Length("secret") == 6;
  }

  /** A character counts at most twice, so a single character never makes
      a username. */
  lemma OneCharacterUsernameRefused(c: Credentials)
    requires |c.username| <= 1
    ensures Validate(c) == Some(ShortUsernameMessage)
  {
  }

  /** The two rejections are told apart, and when both fields are too short
      it is the username that is reported. */
  lemma UsernameReportedFirst(c: Credentials)
    requires Utf16Length(c.username) < MinUsernameLength && Utf16Length(c.password) < MinPasswordLength
    ensures Validate(c) == Some(ShortUsernameMessage) && Validate(c) != Some(ShortPasswordMessage)
  {
    assert ShortUsernameMessage != ShortPasswordMessage by {
      assert |ShortUsernameMessage| != |ShortPasswordMessage|;
    }
  }

  /** `{ ...formData, [name]: value }`. */
  function WithField(c: Credentials, field: RegisterField, value: string): (r: Credentials)
    ensures field == Username ==> r.username == value && r.password == c.password
    ensures field == Password ==> r.password == value && r.username == c.username
  {
    match field
    case Username => c.(username := value)
    case Password => c.(password := value)
  }

  /** What the POST settles with: success, or a failure with the response
      body's message if any. */
  datatype RegisterResult = Registered | Rejected(serverMessage: Option<string>)

  /** The error shown after a failed POST. */
  function RejectionMessage(serverMessage: Option<string>): (m: string)
    ensures serverMessage.Some? && serverMessage.value != "" ==> m == serverMessage.value
    ensures serverMessage.None? || serverMessage.value == "" ==> m == RegisterFailedMessage
    ensures m != ""
  {
    if serverMessage.Some? && serverMessage.value != "" then serverMessage.value else RegisterFailedMessage
  }

  /** The state of the registration page. */
  class RegisterForm {
    var credentials: Credentials
    var loading: bool
    var errorMessage: string
    var successMessage: string
    /** Set once the redirect to the login page has been scheduled. */
    var redirectScheduled: bool

    constructor ()
      ensures credentials == Credentials("", "") && !loading
      ensures errorMessage == "" && successMessage == "" && !redirectScheduled
    {
      credentials := Credentials("", "");
      loading := false;
      errorMessage, successMessage := "", "";
      redirectScheduled := false;
    }

    /** handleChange: only the named field changes, and both messages are
        cleared. */
    method HandleChange(field: RegisterField, value: string)
      modifies this
      ensures credentials == WithField(old(credentials), field, value)
      ensures errorMessage == "" && successMessage == ""
      ensures loading == old(loading) && redirectScheduled == old(redirectScheduled)
    {
      credentials := WithField(credentials, field, value);
      if errorMessage != "" {
        errorMessage := "";
      }
      if successMessage != "" {
        successMessage := "";
      }
    }

    /** handleSubmit: an invalid form shows its message and posts nothing;
        a valid one is posted, and the answer sets the success message and
        schedules the redirect, or sets the error. `sent` is the POST body. */
    method HandleSubmit(post: Credentials -> RegisterResult) returns (sent: Option<Credentials>)
      modifies this
      ensures credentials == old(credentials)
      ensures Validate(old(credentials)).Some? ==>
        && sent == None && errorMessage == Validate(old(credentials)).value
        && successMessage == old(successMessage) && loading == old(loading)
        && redirectScheduled == old(redirectScheduled)
      ensures Validate(old(credentials)).None? ==> sent == Some(old(credentials)) && !loading
      ensures sent.Some? && post(sent.value).Registered? ==>
        errorMessage == "" && successMessage == RegisteredMessage && redirectScheduled
      ensures sent.Some? && post(sent.value).Rejected? ==>
        && errorMessage == RejectionMessage(post(sent.value).serverMessage)
        && successMessage == old(successMessage) && redirectScheduled == old(redirectScheduled)
    {
      var problem := Validate(credentials);
      if problem.Some? {
        errorMessage := problem.value;
        return None;
      }
      loading := true;
      errorMessage := "";
      sent := Some(credentials);
      match post(credentials) {
        case Registered =>
          successMessage := RegisteredMessage;
          redirectScheduled := true;
        case Rejected(serverMessage) =>
          errorMessage := RejectionMessage(serverMessage);
      }
      loading := false;
    }
  }
}
