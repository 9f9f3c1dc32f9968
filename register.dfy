/**
 * The registration form: its fields, the password strength meter, the
 * validation that builds the error list, and the page state that input edits
 * and the submit button change.
 */
module Register {
  import opened Wrappers
  import opened Text
  import opened FormErrors

  // ------------------------------------------------------------ data model

  datatype RegisterField = Name | Email | Phone | Password | ConfirmPassword

  datatype RegisterFormData = RegisterFormData(name: string, email: string, phone: string,
                                               password: string, confirmPassword: string)

  type RegisterError = FieldError<RegisterField>

  const EmptyForm := RegisterFormData("", "", "", "", "")

  function FieldValue(d: RegisterFormData, f: RegisterField): string {
    match f
    case Name => d.name
    case Email => d.email
    case Phone => d.phone
    case Password => d.password
    case ConfirmPassword => d.confirmPassword
  }

  /** `{ ...d, [f]: v }` */
  function WithField(d: RegisterFormData, f: RegisterField, v: string): (r: RegisterFormData)
    ensures FieldValue(r, f) == v
    ensures forall g | g != f :: FieldValue(r, g) == FieldValue(d, g)
  {
    match f
    case Name => d.(name := v)
    case Email => d.(email := v)
    case Phone => d.(phone := v)
    case Password => d.(password := v)
    case ConfirmPassword => d.(confirmPassword := v)
  }

  // ------------------------------------------------------ password strength

  predicate IsUpper(c: char) { 'A' <= c <= 'Z' }
  predicate IsLower(c: char) { 'a' <= c <= 'z' }

  /** The class `[!@#$%^&*(),.?":{}|<>]`. */
  predicate IsSpecial(c: char) { c in "!@#$%^&*(),.?\":{}|<>" }

  predicate ContainsUpper(s: string) { exists j :: 0 <= j < |s| && IsUpper(s[j]) }
  predicate ContainsLower(s: string) { exists j :: 0 <= j < |s| && IsLower(s[j]) }
  predicate ContainsDigit(s: string) { exists j :: 0 <= j < |s| && IsDigit(s[j]) }
  predicate ContainsSpecial(s: string) { exists j :: 0 <= j < |s| && IsSpecial(s[j]) }

  datatype PasswordChecks = PasswordChecks(length: bool, uppercase: bool, lowercase: bool,
                                           number: bool, special: bool)

  datatype PasswordStrength = PasswordStrength(checks: PasswordChecks, score: nat)

  function BoolValue(b: bool): nat { if b then 1 else 0 }

  /** `Object.values(checks)`, in the order the checks are declared. */
  function CheckValues(c: PasswordChecks): seq<bool> {
    [c.length] + ([c.uppercase] + ([c.lowercase] + ([c.number] + [c.special])))
  }

  /** `.filter(Boolean).length`: how many entries are `true`. */
  function CountTrue(bs: seq<bool>): nat {
    if bs == [] then 0 else BoolValue(bs[0]) + CountTrue(bs[1..])
  }

  lemma {:induction false} CountTrueAppend(a: seq<bool>, b: seq<bool>)
    ensures CountTrue(a + b) == CountTrue(a) + CountTrue(b)
  {
    if a == [] {
      assert a + b == b;
    } else {
      assert (a + b)[1..] == a[1..] + b;
      CountTrueAppend(a[1..], b);
    }
  }

  lemma CountTrueOne(x: bool)
    ensures CountTrue([x]) == BoolValue(x)
  {
    assert [x][1..] == [];
  }

  /** The count of passing checks is the sum of their 0/1 values. */
  lemma PassingCountSum(c: PasswordChecks)
    ensures CountTrue(CheckValues(c)) == BoolValue(c.length) + BoolValue(c.uppercase) + BoolValue(c.lowercase)
                                         + BoolValue(c.number) + BoolValue(c.special)
  {
    var a, b, d, e, f := [c.length], [c.uppercase], [c.lowercase], [c.number], [c.special];
    CountTrueOne(c.length);
    CountTrueOne(c.uppercase);
    CountTrueOne(c.lowercase);
    CountTrueOne(c.number);
    CountTrueOne(c.special);
    CountTrueAppend(e, f);
    CountTrueAppend(d, e + f);
    CountTrueAppend(b, d + (e + f));
    CountTrueAppend(a, b + (d + (e + f)));
  }

  /** `checkPasswordStrength`: the five checks and the number of them that pass. */
  function CheckPasswordStrength(password: string): (r: PasswordStrength)
    ensures r.checks == PasswordChecks(|password| >= 8, ContainsUpper(password), ContainsLower(password),
                                       ContainsDigit(password), ContainsSpecial(password))
    ensures r.score == CountTrue(CheckValues(r.checks))
    ensures r.score <= 5
    ensures r.score == 0 <==> !r.checks.length && !r.checks.uppercase && !r.checks.lowercase
                              && !r.checks.number && !r.checks.special
    ensures r.score == 5 <==> r.checks.length && r.checks.uppercase && r.checks.lowercase
                              && r.checks.number && r.checks.special
  {
    var checks := PasswordChecks(|password| >= 8, ContainsUpper(password), ContainsLower(password),
                                 ContainsDigit(password), ContainsSpecial(password));
    PassingCountSum(checks);
    PasswordStrength(checks, BoolValue(checks.length) + BoolValue(checks.uppercase)
                             + BoolValue(checks.lowercase) + BoolValue(checks.number)
                             + BoolValue(checks.special))
  }

  /** Typing more characters never lowers the strength score. */
  lemma StrengthMonotone(p: string, q: string)
    ensures CheckPasswordStrength(p).score <= CheckPasswordStrength(p + q).score
  {
    var s := p + q;
    assert forall j :: 0 <= j < |p| ==> s[j] == p[j];
    var a := CheckPasswordStrength(p).checks;
    var b := CheckPasswordStrength(s).checks;
    assert a.uppercase ==> b.uppercase;
    assert a.lowercase ==> b.lowercase;
    assert a.number ==> b.number;
    assert a.special ==> b.special;
    PassingCountSum(a);
    PassingCountSum(b);
  }

  /** The empty password passes no check. */
  lemma EmptyPasswordScoresZero()
    ensures CheckPasswordStrength("").score == 0
  {
  }

  // ------------------------------------------------------------ the rules

  const MsgNameMissing := "請輸入您的姓名"
  const MsgNameShort := "姓名至少需要 2 個字符"
  const MsgPhoneMissing := "請輸入手機號碼"
  const MsgPhoneFormat := "請輸入有效的台灣手機號碼 (09xxxxxxxx)"
  const MsgPasswordMissing := "請輸入密碼"
  const MsgPasswordWeak := "密碼強度不足，請包含大小寫字母、數字或特殊符號"
  const MsgConfirmMissing := "請確認密碼"
  const MsgConfirmMismatch := "密碼不一致"
  const MsgSubmitFailed := "註冊失敗，請稍後再試"
  const MsgTerms := "請同意服務條款與隱私政策"

  /** `/^09\d{8}$/`: a Taiwanese mobile number. */
  predicate IsTaiwanMobile(s: string) {
    |s| == 10 && s[0] == '0' && s[1] == '9' && forall j :: 2 <= j < 10 ==> IsDigit(s[j])
  }

  /** Name: missing when it is all whitespace, too short with one character left after trimming. */
  function NameRule(name: string): (r: Option<string>)
    ensures r == Some(MsgNameMissing) <==> AllSpace(name)
    ensures r == Some(MsgNameShort) <==> |Trim(name)| == 1
    ensures r == None <==> |Trim(name)| >= 2
  {
    TrimEmptyIff(name);
    if Trim(name) == "" then Some(MsgNameMissing)
    else if |Trim(name)| < 2 then Some(MsgNameShort)
    else None
  }

  /** Phone: accepted exactly when it is `09` followed by eight digits. */
  function PhoneRule(phone: string): (r: Option<string>)
    ensures r == None <==> IsTaiwanMobile(phone)
    ensures r == Some(MsgPhoneMissing) <==> phone == ""
    ensures r == Some(MsgPhoneFormat) <==> phone != "" && !IsTaiwanMobile(phone)
  {
    if phone == "" then Some(MsgPhoneMissing)
    else if !IsTaiwanMobile(phone) then Some(MsgPhoneFormat)
    else None
  }

  /** Password: an error exactly when fewer than three checks pass (the empty password passes none). */
  function PasswordRule(password: string): (r: Option<string>)
    ensures r.Some? <==> CheckPasswordStrength(password).score < 3
    ensures r == Some(MsgPasswordMissing) <==> password == ""
    ensures r == Some(MsgPasswordWeak) <==> password != "" && CheckPasswordStrength(password).score < 3
  {
    assert password == "" ==> CheckPasswordStrength(password).score == 0 by {
      if password == "" { EmptyPasswordScoresZero(); }
    }
    if password == "" then Some(MsgPasswordMissing)
    else if CheckPasswordStrength(password).score < 3 then Some(MsgPasswordWeak)
    else None
  }

  /** Confirmation: an error exactly when it is empty or differs from the password. */
  function ConfirmRule(password: string, confirm: string): (r: Option<string>)
    ensures r.Some? <==> confirm == "" || confirm != password
    ensures r == Some(MsgConfirmMissing) <==> confirm == ""
    ensures r == Some(MsgConfirmMismatch) <==> confirm != "" && confirm != password
  {
    if confirm == "" then Some(MsgConfirmMissing)
    else if password != confirm then Some(MsgConfirmMismatch)
    else None
  }

  function TermsRule(agreeToTerms: bool): Option<string> {
    if !agreeToTerms then Some(MsgTerms) else None
  }

  /** The rule that decides a field's error. */
  function RuleFor(d: RegisterFormData, f: RegisterField): Option<string> {
    match f
    case Name => NameRule(d.name)
    case Email => EmailRule(d.email)
    case Phone => PhoneRule(d.phone)
    case Password => PasswordRule(d.password)
    case ConfirmPassword => ConfirmRule(d.password, d.confirmPassword)
  }

  /** The error list `validateForm` builds: one entry per failing rule, in the order the rules run. */
  function ExpectedErrors(d: RegisterFormData, agreeToTerms: bool): seq<RegisterError> {
    Entry(Some(Name), NameRule(d.name))
    + (Entry(Some(Email), EmailRule(d.email))
    + (Entry(Some(Phone), PhoneRule(d.phone))
    + (Entry(Some(Password), PasswordRule(d.password))
    + (Entry(Some(ConfirmPassword), ConfirmRule(d.password, d.confirmPassword))
    + Entry(None, TermsRule(agreeToTerms))))))
  }

  // Each block below mirrors one inline `if` of `validateForm`; its ensures ties
  // it to the rule function of the same field, which the lemmas reason about.

  /** The name block of `validateForm`: the error it pushes, if any. */
  method CheckName(name: string) returns (e: seq<RegisterError>)
    ensures e == Entry(Some(Name), NameRule(name))
  {
    e := [];
    var trimmed := Trim(name);
    if trimmed == "" {
      e := e + [FieldError(Some(Name), MsgNameMissing)];
    } else if |trimmed| < 2 {
      e := e + [FieldError(Some(Name), MsgNameShort)];
    }
  }

  /** The e-mail block of `validateForm`. */
  method CheckEmail(email: string) returns (e: seq<RegisterError>)
    ensures e == Entry(Some(Email), EmailRule(email))
  {
    e := [];
    if email == "" {
      e := e + [FieldError(Some(Email), MsgEmailMissing)];
    } else if !HasEmailShape(email) {
      e := e + [FieldError(Some(Email), MsgEmailFormat)];
    }
  }

  /** The phone block of `validateForm`. */
  method CheckPhone(phone: string) returns (e: seq<RegisterError>)
    ensures e == Entry(Some(Phone), PhoneRule(phone))
  {
    e := [];
    if phone == "" {
      e := e + [FieldError(Some(Phone), MsgPhoneMissing)];
    } else if !IsTaiwanMobile(phone) {
      e := e + [FieldError(Some(Phone), MsgPhoneFormat)];
    }
  }

  /** The password block of `validateForm`. */
  method CheckPassword(password: string) returns (e: seq<RegisterError>)
    ensures e == Entry(Some(Password), PasswordRule(password))
  {
    e := [];
    if password == "" {
      e := e + [FieldError(Some(Password), MsgPasswordMissing)];
    } else if CheckPasswordStrength(password).score < 3 {
      e := e + [FieldError(Some(Password), MsgPasswordWeak)];
    }
  }

  /** The confirmation block of `validateForm`. */
  method CheckConfirm(password: string, confirm: string) returns (e: seq<RegisterError>)
    ensures e == Entry(Some(ConfirmPassword), ConfirmRule(password, confirm))
  {
    e := [];
    if confirm == "" {
      e := e + [FieldError(Some(ConfirmPassword), MsgConfirmMissing)];
    } else if password != confirm {
      e := e + [FieldError(Some(ConfirmPassword), MsgConfirmMismatch)];
    }
  }

  /**
   * `validateForm`: runs the field blocks in order, then the terms check,
   * collecting one error per failing rule.
   */
  method ValidateForm(d: RegisterFormData, agreeToTerms: bool) returns (errs: seq<RegisterError>)
    ensures errs == ExpectedErrors(d, agreeToTerms)
  {
    var e1 := CheckName(d.name);
    var e2 := CheckEmail(d.email);
    var e3 := CheckPhone(d.phone);
    var e4 := CheckPassword(d.password);
    var e5 := CheckConfirm(d.password, d.confirmPassword);
    var e6: seq<RegisterError> := [];
    if !agreeToTerms {
      e6 := [FieldError(None, MsgTerms)];
    }
    errs := e1 + (e2 + (e3 + (e4 + (e5 + e6))));
  }

  // ------------------------------------------------- properties of the list

  /** The position of each kind of error in the list. */
  function Rank(f: Option<RegisterField>): nat {
    match f
    case Some(Name) => 0
    case Some(Email) => 1
    case Some(Phone) => 2
    case Some(Password) => 3
    case Some(ConfirmPassword) => 4
    case None => 5
  }

  /**
   * Errors come in the order name, email, phone, password, confirmation,
   * general; so no field, and no general error, appears twice.
   */
  lemma ExpectedErrorsOrdered(d: RegisterFormData, agreeToTerms: bool)
    ensures Ranked(ExpectedErrors(d, agreeToTerms), Rank)
    ensures forall i, j :: 0 <= i < j < |ExpectedErrors(d, agreeToTerms)| ==>
              ExpectedErrors(d, agreeToTerms)[i].field != ExpectedErrors(d, agreeToTerms)[j].field
  {
    EntriesOrdered(NameRule(d.name), EmailRule(d.email), PhoneRule(d.phone), PasswordRule(d.password),
                   ConfirmRule(d.password, d.confirmPassword), TermsRule(agreeToTerms));
  }

  /** The same for any outcome of the six rules. */
  lemma EntriesOrdered(name: Option<string>, email: Option<string>, phone: Option<string>,
                       password: Option<string>, confirm: Option<string>, terms: Option<string>)
    ensures var l := Entry(Some(Name), name) + (Entry(Some(Email), email) + (Entry(Some(Phone), phone)
                     + (Entry(Some(Password), password) + (Entry(Some(ConfirmPassword), confirm)
                     + Entry(None, terms)))));
            Ranked(l, Rank) && forall i, j :: 0 <= i < j < |l| ==> l[i].field != l[j].field
  {
    var s5: seq<RegisterError> := Entry(None, terms);
    assert Ranked(s5, Rank) && RanksAbove(s5, Rank, 4);
    var s4 := Entry(Some(ConfirmPassword), confirm) + s5;
    RankedEntry(Some(ConfirmPassword), confirm, s5, Rank);
    var s3 := Entry(Some(Password), password) + s4;
    RankedEntry(Some(Password), password, s4, Rank);
    var s2 := Entry(Some(Phone), phone) + s3;
    RankedEntry(Some(Phone), phone, s3, Rank);
    var s1 := Entry(Some(Email), email) + s2;
    RankedEntry(Some(Email), email, s2, Rank);
    RankedEntry(Some(Name), name, s1, Rank);
    RankedDistinctFields(Entry(Some(Name), name) + s1, Rank);
  }

  /** `getFieldError(f)` on the validated list is exactly what that field's rule says. */
  lemma FieldErrorIsRule(d: RegisterFormData, agreeToTerms: bool, f: RegisterField)
    ensures FindFieldError(ExpectedErrors(d, agreeToTerms), f) == RuleFor(d, f)
  {
    var terms := Entry(None, TermsRule(agreeToTerms));
    var s4 := Entry(Some(ConfirmPassword), ConfirmRule(d.password, d.confirmPassword)) + terms;
    var s3 := Entry(Some(Password), PasswordRule(d.password)) + s4;
    var s2 := Entry(Some(Phone), PhoneRule(d.phone)) + s3;
    var s1 := Entry(Some(Email), EmailRule(d.email)) + s2;
    FindFieldErrorEntry(None, TermsRule(agreeToTerms), [], f);
    assert terms + [] == terms;
    FindFieldErrorEntry(Some(ConfirmPassword), ConfirmRule(d.password, d.confirmPassword), terms, f);
    FindFieldErrorEntry(Some(Password), PasswordRule(d.password), s4, f);
    FindFieldErrorEntry(Some(Phone), PhoneRule(d.phone), s3, f);
    FindFieldErrorEntry(Some(Email), EmailRule(d.email), s2, f);
    FindFieldErrorEntry(Some(Name), NameRule(d.name), s1, f);
  }

  /** The only general error is the terms error, present exactly when the terms are not accepted. */
  lemma GeneralErrorIsTerms(d: RegisterFormData, agreeToTerms: bool)
    ensures GeneralErrors(ExpectedErrors(d, agreeToTerms))
            == if agreeToTerms then [] else [FieldError(None, MsgTerms)]
  {
    var terms := Entry(None, TermsRule(agreeToTerms));
    var s4 := Entry(Some(ConfirmPassword), ConfirmRule(d.password, d.confirmPassword)) + terms;
    var s3 := Entry(Some(Password), PasswordRule(d.password)) + s4;
    var s2 := Entry(Some(Phone), PhoneRule(d.phone)) + s3;
    var s1 := Entry(Some(Email), EmailRule(d.email)) + s2;
    GeneralErrorsEntry<RegisterField>(None, TermsRule(agreeToTerms));
    GeneralErrorsEntry(Some(ConfirmPassword), ConfirmRule(d.password, d.confirmPassword));
    GeneralErrorsAppend(Entry(Some(ConfirmPassword), ConfirmRule(d.password, d.confirmPassword)), terms);
    assert GeneralErrors(s4) == terms;
    GeneralErrorsEntry(Some(Password), PasswordRule(d.password));
    GeneralErrorsAppend(Entry(Some(Password), PasswordRule(d.password)), s4);
    assert GeneralErrors(s3) == terms;
    GeneralErrorsEntry(Some(Phone), PhoneRule(d.phone));
    GeneralErrorsAppend(Entry(Some(Phone), PhoneRule(d.phone)), s3);
    assert GeneralErrors(s2) == terms;
    GeneralErrorsEntry(Some(Email), EmailRule(d.email));
    GeneralErrorsAppend(Entry(Some(Email), EmailRule(d.email)), s2);
    assert GeneralErrors(s1) == terms;
    GeneralErrorsEntry(Some(Name), NameRule(d.name));
    GeneralErrorsAppend(Entry(Some(Name), NameRule(d.name)), s1);
  }

  /** Every rule passes: the condition under which the form is sent. */
  predicate AllRulesPass(d: RegisterFormData, agreeToTerms: bool) {
    |Trim(d.name)| >= 2 && HasEmailShape(d.email) && IsTaiwanMobile(d.phone)
    && CheckPasswordStrength(d.password).score >= 3 && d.confirmPassword == d.password
    && agreeToTerms
  }

  /** The list is empty exactly when every rule passes. */
  lemma ExpectedErrorsEmptyIff(d: RegisterFormData, agreeToTerms: bool)
    ensures ExpectedErrors(d, agreeToTerms) == [] <==> AllRulesPass(d, agreeToTerms)
  {
    if HasEmailShape(d.email) {
      EmailShapeNonEmpty(d.email);
    }
    var name := Entry(Some(Name), NameRule(d.name));
    var email := Entry(Some(Email), EmailRule(d.email));
    var phone := Entry(Some(Phone), PhoneRule(d.phone));
    var password := Entry(Some(Password), PasswordRule(d.password));
    var confirm := Entry(Some(ConfirmPassword), ConfirmRule(d.password, d.confirmPassword));
    var terms: seq<RegisterError> := Entry(None, TermsRule(agreeToTerms));
    assert |ExpectedErrors(d, agreeToTerms)|
        == |name| + |email| + |phone| + |password| + |confirm| + |terms|;
  }

  // ------------------------------------------------------------ the page

  /** The registration page's state. */
  class RegisterPage {
    var formData: RegisterFormData
    var errors: seq<RegisterError>
    var agreeToTerms: bool
    var agreeToMarketing: bool
    var isLoading: bool

    constructor ()
      ensures formData == EmptyForm && errors == []
      ensures !agreeToTerms && !agreeToMarketing && !isLoading
    {
      formData := EmptyForm;
      errors := [];
      agreeToTerms := false;
      agreeToMarketing := false;
      isLoading := false;
    }

    /** `handleInputChange`: sets one field and clears that field's errors. */
    method HandleInputChange(field: RegisterField, value: string)
      modifies this
      ensures formData == WithField(old(formData), field, value)
      ensures errors == PruneField(old(errors), field)
      ensures agreeToTerms == old(agreeToTerms) && agreeToMarketing == old(agreeToMarketing)
      ensures isLoading == old(isLoading)
    {
      formData := WithField(formData, field, value);
      if HasFieldError(errors, field) {
        errors := PruneField(errors, field);
      } else {
        PruneFieldAbsent(errors, field);
      }
    }

    /** The terms checkbox; ticking it does not clear an error already shown. */
    method SetAgreeToTerms(checked: bool)
      modifies this
      ensures agreeToTerms == checked
      ensures formData == old(formData) && errors == old(errors)
      ensures agreeToMarketing == old(agreeToMarketing) && isLoading == old(isLoading)
    {
      agreeToTerms := checked;
    }

    /** The marketing checkbox. */
    method SetAgreeToMarketing(checked: bool)
      modifies this
      ensures agreeToMarketing == checked
      ensures formData == old(formData) && errors == old(errors)
      ensures agreeToTerms == old(agreeToTerms) && isLoading == old(isLoading)
    {
      agreeToMarketing := checked;
    }

    /**
     * The validation gate of `handleSubmit`: a failing form stores its errors
     * and stops before loading starts; a passing one clears the errors and
     * starts loading (the simulated request itself is not modelled).
     */
    method HandleSubmit() returns (started: bool)
      modifies this
      ensures started <==> AllRulesPass(old(formData), old(agreeToTerms))
      ensures !started ==> errors == ExpectedErrors(old(formData), old(agreeToTerms)) && errors != []
                           && isLoading == old(isLoading)
      ensures started ==> errors == [] && isLoading
      ensures formData == old(formData) && agreeToTerms == old(agreeToTerms)
      ensures agreeToMarketing == old(agreeToMarketing)
    {
      var newErrors := ValidateForm(formData, agreeToTerms);
      ExpectedErrorsEmptyIff(formData, agreeToTerms);
      started := newErrors == [];
      ShowValidation(newErrors);
    }

    /**
     * The two outcomes of the gate: a non-empty list is stored and nothing
     * else changes; an empty one clears the errors and starts loading.
     */
    method ShowValidation(newErrors: seq<RegisterError>)
      modifies this
      ensures errors == newErrors
      ensures isLoading == (newErrors == [] || old(isLoading))
      ensures formData == old(formData) && agreeToTerms == old(agreeToTerms)
      ensures agreeToMarketing == old(agreeToMarketing)
    {
      if newErrors != [] {
        errors := newErrors;
      } else {
        isLoading := true;
        errors := [];
      }
    }

    /**
     * The end of the simulated request: the `finally` clears loading, and a
     * failed request (the `catch`) replaces the errors by one general error.
     */
    method FinishSubmit(failed: bool)
      modifies this
      ensures !isLoading
      ensures errors == if failed then [FieldError(None, MsgSubmitFailed)] else old(errors)
      ensures formData == old(formData) && agreeToTerms == old(agreeToTerms)
      ensures agreeToMarketing == old(agreeToMarketing)
    {
      if failed {
        errors := [FieldError(None, MsgSubmitFailed)];
      }
      isLoading := false;
    }
  }
}
