/**
 * The login page: its form, the two-rule validation, the error list the page
 * keeps and the submit gate.
 */
module Login {
  import opened Wrappers
  import opened Text
  import opened FormErrors

  datatype LoginField = Email | Password

  datatype LoginFormData = LoginFormData(email: string, password: string)

  /** An error is tied to a field, or general when `field` is `None`. */
  type LoginError = FieldError<LoginField>

  const EmptyForm := LoginFormData("", "")

  function FieldValue(d: LoginFormData, f: LoginField): string {
    match f
    case Email => d.email
    case Password => d.password
  }

  /** `{ ...prev, [name]: value }`: one field replaced. */
  function WithField(d: LoginFormData, f: LoginField, value: string): (r: LoginFormData)
    ensures FieldValue(r, f) == value
    ensures forall g :: g != f ==> FieldValue(r, g) == FieldValue(d, g)
  {
    match f
    case Email => d.(email := value)
    case Password => d.(password := value)
  }

  const MsgPasswordMissing := "請輸入密碼"
  const MsgPasswordShort := "密碼至少需要 6 個字符"
  const MsgLoginFailed := "登入失敗，請檢查您的帳號密碼"

  /** The shortest password the form accepts. */
  const MinPasswordLength := 6

  /** Password: missing when empty, too short below six characters, else fine. */
  function PasswordRule(password: string): (r: Option<string>)
    ensures r == Some(MsgPasswordMissing) <==> password == ""
    ensures r == Some(MsgPasswordShort) <==> 0 < |password| < 6
    ensures r == None <==> |password| >= 6
  {
    if password == "" then Some(MsgPasswordMissing)
    else if |password| < MinPasswordLength then Some(MsgPasswordShort)
    else None
  }

  function RuleFor(d: LoginFormData, f: LoginField): Option<string> {
    match f
    case Email => EmailRule(d.email)
    case Password => PasswordRule(d.password)
  }

  /** The list `validateForm` returns: the e-mail error, if any, then the password error. */
  function ExpectedErrors(d: LoginFormData): seq<LoginError> {
    Entry(Some(Email), EmailRule(d.email)) + Entry(Some(Password), PasswordRule(d.password))
  }

  /** `validateForm`: the e-mail rule, then the password rule. */
  method ValidateForm(d: LoginFormData) returns (errs: seq<LoginError>)
    ensures errs == ExpectedErrors(d)
  {
    errs := [];
    if d.email == "" {
      errs := errs + [FieldError(Some(Email), MsgEmailMissing)];
    } else if !HasEmailShape(d.email) {
      errs := errs + [FieldError(Some(Email), MsgEmailFormat)];
    }
    if d.password == "" {
      errs := errs + [FieldError(Some(Password), MsgPasswordMissing)];
    } else if |d.password| < MinPasswordLength {
      errs := errs + [FieldError(Some(Password), MsgPasswordShort)];
    }
  }

  // ------------------------------------------------- properties of the list

  function Rank(f: Option<LoginField>): nat {
    match f
    case Some(Email) => 0
    case Some(Password) => 1
    case None => 2
  }

  /** At most two errors, the e-mail one first, never two for the same field. */
  lemma ExpectedErrorsOrdered(d: LoginFormData)
    ensures |ExpectedErrors(d)| <= 2
    ensures Ranked(ExpectedErrors(d), Rank)
    ensures forall i, j :: 0 <= i < j < |ExpectedErrors(d)| ==>
              ExpectedErrors(d)[i].field != ExpectedErrors(d)[j].field
  {
    var pw := Entry(Some(Password), PasswordRule(d.password));
    assert Ranked(pw, Rank) && RanksAbove(pw, Rank, 0);
    RankedEntry(Some(Email), EmailRule(d.email), pw, Rank);
    RankedDistinctFields(ExpectedErrors(d), Rank);
  }

  /** `getFieldError(f)` on the validated list is exactly that field's rule. */
  lemma FieldErrorIsRule(d: LoginFormData, f: LoginField)
    ensures FindFieldError(ExpectedErrors(d), f) == RuleFor(d, f)
  {
    var pw := Entry(Some(Password), PasswordRule(d.password));
    FindFieldErrorEntry(Some(Password), PasswordRule(d.password), [], f);
    assert pw + [] == pw;
    FindFieldErrorEntry(Some(Email), EmailRule(d.email), pw, f);
  }

  /** Validation never produces a general error. */
  lemma NoGeneralErrors(d: LoginFormData)
    ensures GeneralErrors(ExpectedErrors(d)) == []
  {
    GeneralErrorsEntry(Some(Email), EmailRule(d.email));
    GeneralErrorsEntry(Some(Password), PasswordRule(d.password));
    GeneralErrorsAppend(Entry(Some(Email), EmailRule(d.email)), Entry(Some(Password), PasswordRule(d.password)));
  }

  /** The credentials pass the form's checks. */
  predicate AllRulesPass(d: LoginFormData) {
    HasEmailShape(d.email) && |d.password| >= MinPasswordLength
  }

  /** The list is empty exactly when both rules pass. */
  lemma ExpectedErrorsEmptyIff(d: LoginFormData)
    ensures ExpectedErrors(d) == [] <==> AllRulesPass(d)
  {
    if HasEmailShape(d.email) {
      EmailShapeNonEmpty(d.email);
    }
  }

  // ------------------------------------------------------------ the page

  /** The login page's state. */
  class LoginPage {
    var formData: LoginFormData
    var errors: seq<LoginError>
    var isLoading: bool
    var rememberMe: bool
    var showPassword: bool

    constructor ()
      ensures formData == EmptyForm && errors == []
      ensures !isLoading && !rememberMe && !showPassword
    {
      formData := EmptyForm;
      errors := [];
      isLoading := false;
      rememberMe := false;
      showPassword := false;
    }

    /** `handleInputChange`: sets one field and clears that field's errors. */
    method HandleInputChange(field: LoginField, value: string)
      modifies this
      ensures formData == WithField(old(formData), field, value)
      ensures errors == PruneField(old(errors), field)
      ensures isLoading == old(isLoading) && rememberMe == old(rememberMe)
      ensures showPassword == old(showPassword)
    {
      formData := WithField(formData, field, value);
      if HasFieldError(errors, field) {
        errors := PruneField(errors, field);
      } else {
        PruneFieldAbsent(errors, field);
      }
    }

    /** The "remember me" checkbox. */
    method SetRememberMe(checked: bool)
      modifies this
      ensures rememberMe == checked
      ensures formData == old(formData) && errors == old(errors)
      ensures isLoading == old(isLoading) && showPassword == old(showPassword)
    {
      rememberMe := checked;
    }

    /** The eye button next to the password. */
    method TogglePasswordVisibility()
      modifies this
      ensures showPassword == !old(showPassword)
      ensures formData == old(formData) && errors == old(errors)
      ensures isLoading == old(isLoading) && rememberMe == old(rememberMe)
    {
      showPassword := !showPassword;
    }

    /**
     * The validation gate of `handleSubmit`: a failing form stores its errors
     * and stops; a passing one clears the errors and starts loading.
     */
    method HandleSubmit() returns (started: bool)
      modifies this
      ensures started <==> AllRulesPass(old(formData))
      ensures !started ==> errors == ExpectedErrors(old(formData)) && errors != []
                           && isLoading == old(isLoading)
      ensures started ==> errors == [] && isLoading
      ensures formData == old(formData) && rememberMe == old(rememberMe)
      ensures showPassword == old(showPassword)
    {
      var newErrors := ValidateForm(formData);
      ExpectedErrorsEmptyIff(formData);
      if |newErrors| > 0 {
        errors := newErrors;
        return false;
      }
      isLoading := true;
      errors := [];
      started := true;
    }

    /**
     * The end of the simulated request: the `finally` clears loading, and a
     * failed request (the `catch`) replaces the errors by one general error.
     */
    method FinishSubmit(failed: bool)
      modifies this
      ensures !isLoading
      ensures errors == if failed then [FieldError(None, MsgLoginFailed)] else old(errors)
      ensures formData == old(formData) && rememberMe == old(rememberMe)
      ensures showPassword == old(showPassword)
    {
      if failed {
        errors := [FieldError(None, MsgLoginFailed)];
      }
      isLoading := false;
    }
  }
}
