/**
 * The password-reset page: one form asks the server to send a reset link,
 * the other sends the reset code with a new password. Each submission is
 * two steps: the synchronous checks up to the request, and the handling of
 * the request's outcome. The request itself is outside the model; the
 * outcome is a parameter.
 */
module ForgotPassword {
  import opened JsValues
  import opened JsText

  const EmailMissingMessage := "Please enter the email you registered with."
  const RequestSentMessage := "Check your inbox for a reset link."
  const CodeMissingMessage := "Paste the reset code you received."
  const PasswordTooShortMessage := "New password must be at least 8 characters."
  const MismatchMessage := "Passwords do not match."
  const PasswordUpdatedMessage := "Password updated. You can sign in now."

  /** The message of the TypeError thrown when the answer is `null` and its `message` is read. */
  const NullAnswerMessage := "Cannot read properties of null (reading 'message')"

  const MinPasswordLength := 8

  datatype ResetForm = ResetForm(token: string, password: string, confirm: string)

  /** How an `apiCall` ends: with the parsed answer, or by throwing an error with this message. */
  datatype CallOutcome = Answered(data: Json) | Failed(message: string)

  /** The body `handleResetPassword` posts. */
  datatype ResetRequest = ResetRequest(token: string, password: string)

  /** A string property of the answer that is present and non-empty. */
  function TextField(data: Json, key: string): (r: Option<string>)
    requires !data.JNull?
    ensures r.Some? ==> r.value != "" && Field(data, key) == Some(JStr(r.value))
    ensures r.None? ==> Field(data, key).None? || !Field(data, key).value.JStr? || Field(data, key).value.s == ""
  {
    match Field(data, key)
    case Some(JStr(s)) => if s != "" then Some(s) else None
    case _ => None
  }

  /**
   * The first check of `handleResetPassword` that fails, in order: a code
   * that is not blank, a password of at least eight characters, and a
   * confirmation equal to it.
   */
  function ResetProblem(form: ResetForm): (p: Option<string>)
    ensures p == Some(CodeMissingMessage) <==> AllWhitespace(form.token)
    ensures p == Some(PasswordTooShortMessage) <==> !AllWhitespace(form.token) && |form.password| < MinPasswordLength
    ensures p == Some(MismatchMessage) <==>
      !AllWhitespace(form.token) && |form.password| >= MinPasswordLength && form.password != form.confirm
    ensures p.None? <==>
      !AllWhitespace(form.token) && |form.password| >= MinPasswordLength && form.password == form.confirm
  {
    TrimEmptyIff(form.token);
    if Trim(form.token) == "" then Some(CodeMissingMessage)
    else if |form.password| < MinPasswordLength then Some(PasswordTooShortMessage)
    else if form.password != form.confirm then Some(MismatchMessage)
    else None
  }

  /** A form that passes the checks has a confirmed password of at least eight characters and a non-empty code once trimmed. */
  lemma AcceptedResetForm(form: ResetForm)
    requires ResetProblem(form).None?
    ensures Trim(form.token) != "" && |form.password| >= MinPasswordLength && form.confirm == form.password
  {
    TrimEmptyIff(form.token);
  }

  /** The page's state. */
  class ResetPage {
    var email: string
    var requestLoading: bool
    var requestError: string
    var requestMessage: string
    var devToken: string
    var form: ResetForm
    var resetLoading: bool
    var resetError: string
    var resetMessage: string

    /** The page opened with the `token` search parameter, if any; an empty one counts as none. */
    constructor(tokenParam: Option<string>)
      ensures form == ResetForm(if tokenParam.Some? then tokenParam.value else "", "", "")
      ensures email == "" && devToken == "" && !requestLoading && !resetLoading
      ensures requestError == "" && requestMessage == "" && resetError == "" && resetMessage == ""
    {
      email := "";
      requestLoading := false;
      requestError := "";
      requestMessage := "";
      devToken := "";
      form := ResetForm(if tokenParam.Some? then tokenParam.value else "", "", "");
      resetLoading := false;
      resetError := "";
      resetMessage := "";
    }

    /** The effect on the search parameters: a non-empty `token` replaces the code in the form. */
    method TokenParamChanged(tokenParam: Option<string>)
      modifies this`form
      ensures tokenParam.Some? && tokenParam.value != "" ==> form == old(form).(token := tokenParam.value)
      ensures tokenParam.None? || tokenParam.value == "" ==> form == old(form)
    {
      if tokenParam.Some? && tokenParam.value != "" {
        form := form.(token := tokenParam.value);
      }
    }

    /** The email input. */
    method EditEmail(value: string)
      modifies this`email
      ensures email == value
    {
      email := value;
    }

    /** The reset-code input. */
    method EditToken(value: string)
      modifies this`form
      ensures form == old(form).(token := value)
    {
      form := form.(token := value);
    }

    /** The new-password input. */
    method EditPassword(value: string)
      modifies this`form
      ensures form == old(form).(password := value)
    {
      form := form.(password := value);
    }

    /** The confirmation input. */
    method EditConfirm(value: string)
      modifies this`form
      ensures form == old(form).(confirm := value)
    {
      form := form.(confirm := value);
    }

    /**
     * `handleRequestReset` up to the request: the old error, message and
     * development token are cleared; a blank email is refused, any other is
     * sent trimmed (`sent`) with the request marked as loading.
     */
    method SubmitRequest() returns (sent: Option<string>)
      modifies this`requestError, this`requestMessage, this`devToken, this`requestLoading
      ensures requestMessage == "" && devToken == ""
      ensures AllWhitespace(email) ==> sent.None? && requestError == EmailMissingMessage && requestLoading == old(requestLoading)
      ensures !AllWhitespace(email) ==> sent == Some(Trim(email)) && Trim(email) != "" && requestError == "" && requestLoading
    {
      requestError := "";
      requestMessage := "";
      devToken := "";
      TrimEmptyIff(email);
      var trimmed := Trim(email);
      if trimmed == "" {
        requestError := EmailMissingMessage;
        sent := None;
        return;
      }
      requestLoading := true;
      sent := Some(trimmed);
    }

    /**
     * The rest of `handleRequestReset`: the answer's message (or the default
     * one) is shown, and a development reset token it carries is shown and
     * copied into the reset form; a failure shows its message. Loading ends
     * either way.
     */
    method FinishRequest(outcome: CallOutcome)
      modifies this`requestError, this`requestMessage, this`devToken, this`form, this`requestLoading
      ensures !requestLoading
      ensures outcome.Failed? ==>
        requestError == outcome.message && requestMessage == old(requestMessage) &&
        devToken == old(devToken) && form == old(form)
      ensures outcome == Answered(JNull) ==>
        requestError == NullAnswerMessage && requestMessage == old(requestMessage) &&
        devToken == old(devToken) && form == old(form)
      ensures outcome.Answered? && outcome.data != JNull ==>
        && requestError == old(requestError)
        && requestMessage == OrElse(TextField(outcome.data, "message"), RequestSentMessage)
        && (TextField(outcome.data, "resetToken").Some? ==>
              devToken == TextField(outcome.data, "resetToken").value && form == old(form).(token := devToken))
        && (TextField(outcome.data, "resetToken").None? ==> devToken == old(devToken) && form == old(form))
    {
      match outcome {
        case Failed(message) =>
          requestError := message;
        case Answered(data) =>
          if data == JNull {
            requestError := NullAnswerMessage;
          } else {
            requestMessage := OrElse(TextField(data, "message"), RequestSentMessage);
            var token := TextField(data, "resetToken");
            if token.Some? {
              devToken := token.value;
              form := form.(token := token.value);
            }
          }
      }
      requestLoading := false;
    }

    /**
     * `handleResetPassword` up to the request: the old error and message are
     * cleared; the first failing check is shown, or the trimmed code and the
     * password are sent with the reset marked as loading.
     */
    method SubmitReset() returns (sent: Option<ResetRequest>)
      modifies this`resetError, this`resetMessage, this`resetLoading
      ensures resetMessage == ""
      ensures ResetProblem(form).Some? ==>
        sent.None? && resetError == ResetProblem(form).value && resetLoading == old(resetLoading)
      ensures ResetProblem(form).None? ==>
        sent == Some(ResetRequest(Trim(form.token), form.password)) && resetError == "" && resetLoading
    {
      resetError := "";
      resetMessage := "";
      var problem := ResetProblem(form);
      if problem.Some? {
        resetError := problem.value;
        sent := None;
        return;
      }
      resetLoading := true;
      sent := Some(ResetRequest(Trim(form.token), form.password));
    }

    /**
     * The rest of `handleResetPassword`: on an answer its message (or the
     * default one) is shown and both password fields are emptied, the code
     * kept; a failure shows its message and leaves the form. Loading ends
     * either way.
     */
    method FinishReset(outcome: CallOutcome)
      modifies this`resetError, this`resetMessage, this`form, this`resetLoading
      ensures !resetLoading
      ensures outcome.Failed? ==>
        resetError == outcome.message && resetMessage == old(resetMessage) && form == old(form)
      ensures outcome == Answered(JNull) ==>
        resetError == NullAnswerMessage && resetMessage == old(resetMessage) && form == old(form)
      ensures outcome.Answered? && outcome.data != JNull ==>
        && resetError == old(resetError)
        && resetMessage == OrElse(TextField(outcome.data, "message"), PasswordUpdatedMessage)
        && form == ResetForm(old(form).token, "", "")
    {
      match outcome {
        case Failed(message) =>
          resetError := message;
        case Answered(data) =>
          if data == JNull {
            resetError := NullAnswerMessage;
          } else {
            resetMessage := OrElse(TextField(data, "message"), PasswordUpdatedMessage);
            form := form.(password := "", confirm := "");
          }
      }
      resetLoading := false;
    }
  }
}
