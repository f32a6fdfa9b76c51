/**
  The reset-password form. Submitting runs an ordered validator (passwords
  match, then at least eight characters, then a token is present) and only
  then calls the identity provider's `resetPassword`; the provider's reply
  is a parameter. A token counts as present only when it is neither absent
  nor empty, as JavaScript's `!token` decides. Password length is the length
  of the sequence of characters.
*/
module ResetPassword {
  import opened Wrappers

  const MIN_PASSWORD_LENGTH: nat := 8
  const MISMATCH_ERROR: string := "パスワードが一致しません"
  const TOO_SHORT_ERROR: string := "パスワードは8文字以上で入力してください"
  const INVALID_LINK_ERROR: string := "無効なリセットリンクです"
  const RESET_FAILED_ERROR: string := "パスワードのリセットに失敗しました"
  const SUBMIT_LABEL: string := "パスワードをリセット"
  const SUBMITTING_LABEL: string := "リセット中..."

  /** JavaScript's `!token` for the `token` query parameter. */
  predicate TokenMissing(token: Option<string>) {
    token.None? || token.value == ""
  }

  /** The arguments of `authClient.resetPassword`. */
  datatype ResetRequest = ResetRequest(newPassword: string, token: string)

  /** What the validator decides before any network call. */
  datatype Decision = Reject(error: string) | Call(request: ResetRequest)

  function ValidateSubmit(password: string, confirmPassword: string, token: Option<string>): (d: Decision)
    ensures password != confirmPassword ==> d == Reject(MISMATCH_ERROR)
    ensures password == confirmPassword && |password| < MIN_PASSWORD_LENGTH ==> d == Reject(TOO_SHORT_ERROR)
    ensures password == confirmPassword && |password| >= MIN_PASSWORD_LENGTH && TokenMissing(token) ==>
      d == Reject(INVALID_LINK_ERROR)
    ensures d.Call? <==> password == confirmPassword && |password| >= MIN_PASSWORD_LENGTH && !TokenMissing(token)
    ensures d.Call? ==> token == Some(d.request.token) && d.request.newPassword == password
  {
    if password != confirmPassword then Reject(MISMATCH_ERROR)
    else if |password| < MIN_PASSWORD_LENGTH then Reject(TOO_SHORT_ERROR)
    else if TokenMissing(token) then Reject(INVALID_LINK_ERROR)
    else Call(ResetRequest(password, token.value))
  }

  /** The checks of the form, each with the error it reports. */
  datatype Check = PasswordsMatch | LongEnough | HasToken

  function CheckError(c: Check): string {
    match c
    case PasswordsMatch => MISMATCH_ERROR
    case LongEnough => TOO_SHORT_ERROR
    case HasToken => INVALID_LINK_ERROR
  }

  predicate Passes(c: Check, password: string, confirmPassword: string, token: Option<string>) {
    match c
    case PasswordsMatch => password == confirmPassword
    case LongEnough => |password| >= MIN_PASSWORD_LENGTH
    case HasToken => !TokenMissing(token)
  }

  /** The checks in the order the form applies them. */
  const CHECK_ORDER: seq<Check> := [PasswordsMatch, LongEnough, HasToken]

  /** The checks of `checks` that fail, in their order. */
  function Failing(checks: seq<Check>, password: string, confirmPassword: string, token: Option<string>): (r: seq<Check>)
    ensures forall c :: c in r <==> c in checks && !Passes(c, password, confirmPassword, token)
  {
    if checks == [] then []
    else if Passes(checks[0], password, confirmPassword, token) then Failing(checks[1..], password, confirmPassword, token)
    else [checks[0]] + Failing(checks[1..], password, confirmPassword, token)
  }

  /** The validator reports the first failing check in the form's order, and
      calls the provider exactly when none fails. */
  lemma ValidateReportsFirstFailure(password: string, confirmPassword: string, token: Option<string>)
    ensures var failing := Failing(CHECK_ORDER, password, confirmPassword, token);
      && (failing == [] <==> ValidateSubmit(password, confirmPassword, token).Call?)
      && (failing != [] ==> ValidateSubmit(password, confirmPassword, token) == Reject(CheckError(failing[0])))
  {
    var p, c, t := password, confirmPassword, token;
    assert [HasToken][1..] == [];
    assert Failing([], p, c, t) == [];
    var last := Failing([HasToken], p, c, t);
    assert last == if Passes(HasToken, p, c, t) then [] else [HasToken];
    assert [LongEnough, HasToken][1..] == [HasToken];
    var tail := Failing([LongEnough, HasToken], p, c, t);
    assert tail == if Passes(LongEnough, p, c, t) then last else [LongEnough] + last;
    assert CHECK_ORDER[1..] == [LongEnough, HasToken];
    assert Failing(CHECK_ORDER, p, c, t) == if Passes(PasswordsMatch, p, c, t) then tail else [PasswordsMatch] + tail;
  }

  /** The text shown when the provider answers with an error: its message, or
      the generic text when the message is absent or empty. */
  function ProviderErrorText(message: Option<string>): (text: string)
    ensures text != ""
    ensures message.Some? && message.value != "" ==> text == message.value
    ensures message.None? || message.value == "" ==> text == RESET_FAILED_ERROR
  {
    if message.Some? && message.value != "" then message.value else RESET_FAILED_ERROR
  }

  /** How the provider's `resetPassword` call ends: a result with or without
      an error object, or a thrown exception. */
  datatype ResetReply = Resolved(error: Option<Option<string>>) | Threw

  /** What the component renders. */
  datatype Screen =
    | InvalidLinkScreen
    | ResetDoneScreen
    | FormScreen(banner: Option<string>, submitLabel: string, submitDisabled: bool)

  function Render(token: Option<string>, success: bool, error: Option<string>, isLoading: bool): (s: Screen)
    ensures s.InvalidLinkScreen? <==> TokenMissing(token)
    ensures s.ResetDoneScreen? <==> !TokenMissing(token) && success
    ensures s.FormScreen? ==> s.submitDisabled == isLoading
    ensures s.FormScreen? ==> (s.banner.Some? <==> error.Some? && error.value != "")
    ensures s.FormScreen? && s.banner.Some? ==> Some(s.banner.value) == error
  {
    if TokenMissing(token) then InvalidLinkScreen
    else if success then ResetDoneScreen
    else FormScreen(if error.Some? && error.value != "" then error else None,
                    if isLoading then SUBMITTING_LABEL else SUBMIT_LABEL, isLoading)
  }

  /** The form can only be submitted while it is on screen, and it is on
      screen only with a token: the missing-token error of the validator is
      never shown to a user of the rendered form. */
  lemma VisibleFormHasToken(token: Option<string>, success: bool, error: Option<string>, isLoading: bool,
                            password: string, confirmPassword: string)
    requires Render(token, success, error, isLoading).FormScreen?
    ensures ValidateSubmit(password, confirmPassword, token) != Reject(INVALID_LINK_ERROR)
  {
  }

  /** The component's state. */
  class Form {
    const token: Option<string>
    var password: string
    var confirmPassword: string
    var error: Option<string>
    var success: bool
    var isLoading: bool

    constructor (token: Option<string>)
      ensures this.token == token && password == "" && confirmPassword == ""
      ensures error.None? && !success && !isLoading
    {
      this.token := token;
      password, confirmPassword := "", "";
      error, success, isLoading := None, false, false;
    }

    method SetPassword(value: string)
      modifies this`password
      ensures password == value
    {
      password := value;
    }

    method SetConfirmPassword(value: string)
      modifies this`confirmPassword
      ensures confirmPassword == value
    {
      confirmPassword := value;
    }

    function View(): Screen
      reads this
    {
      Render(token, success, error, isLoading)
    }

    /** `handleSubmit`: `call` is the request sent to the provider, if one is;
        `reply` is consulted only when it is. */
    method HandleSubmit(reply: ResetReply) returns (call: Option<ResetRequest>)
      modifies this`error, this`success, this`isLoading
      ensures old(View()).FormScreen? ==> ValidateSubmit(password, confirmPassword, token) != Reject(INVALID_LINK_ERROR)
      ensures match ValidateSubmit(password, confirmPassword, token)
        case Reject(message) =>
          && call.None? && error == Some(message)
          && success == old(success) && isLoading == old(isLoading)
        case Call(request) =>
          && call == Some(request) && !isLoading
          && (reply == Resolved(None) ==> error.None? && success)
          && (reply.Resolved? && reply.error.Some? ==>
                error == Some(ProviderErrorText(reply.error.value)) && success == old(success))
          && (reply.Threw? ==> error == Some(RESET_FAILED_ERROR) && success == old(success))
    {
      error := None;
      if password != confirmPassword {
        error := Some(MISMATCH_ERROR);
        return None;
      }
      if |password| < MIN_PASSWORD_LENGTH {
        error := Some(TOO_SHORT_ERROR);
        return None;
      }
      if TokenMissing(token) {
        error := Some(INVALID_LINK_ERROR);
        return None;
      }
      isLoading := true;
      call := Some(ResetRequest(password, token.value));
      match reply {
        case Resolved(Some(message)) =>
          error := Some(ProviderErrorText(message));
        case Resolved(None) =>
          success := true;
        case Threw =>
          error := Some(RESET_FAILED_ERROR);
      }
      isLoading := false;
    }
  }
}
