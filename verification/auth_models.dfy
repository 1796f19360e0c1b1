/**
 * The request models of `auth/models.py` that carry rules: sign-up, password
 * change and password reset, and the token record. Fields are checked in
 * declaration order, a field's length bounds before its validator, and a
 * confirmation is compared with the password only when the password itself
 * was accepted (a failed field is absent from the values later validators
 * see). Letter and digit classes are ASCII.
 */
module AuthModels {
  import opened Wrappers

  /** Why a field was refused. */
  datatype Problem = Length | NoUppercase | NoLowercase | NoDigit | Mismatch

  datatype FieldError = FieldError(field: string, problem: Problem)

  predicate IsUpper(c: char) { 'A' <= c <= 'Z' }
  predicate IsLower(c: char) { 'a' <= c <= 'z' }
  predicate IsDigit(c: char) { '0' <= c <= '9' }

  predicate HasUpper(v: string) { exists i :: 0 <= i < |v| && IsUpper(v[i]) }
  predicate HasLower(v: string) { exists i :: 0 <= i < |v| && IsLower(v[i]) }
  predicate HasDigit(v: string) { exists i :: 0 <= i < |v| && IsDigit(v[i]) }

  /** A password the complexity rule accepts. */
  predicate StrongPassword(v: string) {
    8 <= |v| <= 100 && HasUpper(v) && HasLower(v) && HasDigit(v)
  }

  /**
   * A password field of `UserCreate` or `PasswordChange`: the length bounds
   * of its `Field`, then `validate_password`, which reports the first
   * missing character class.
   */
  function PasswordProblem(v: string): (r: Option<Problem>)
    ensures r.None? <==> StrongPassword(v)
    ensures r == Some(Length) <==> !(8 <= |v| <= 100)
    ensures r == Some(NoUppercase) ==> 8 <= |v| <= 100 && !HasUpper(v)
    ensures r == Some(NoLowercase) ==> HasUpper(v) && !HasLower(v)
    ensures r == Some(NoDigit) ==> HasUpper(v) && HasLower(v) && !HasDigit(v)
    ensures r != Some(Mismatch)
  {
    if !(8 <= |v| <= 100) then Some(Length)
    else if !HasUpper(v) then Some(NoUppercase)
    else if !HasLower(v) then Some(NoLowercase)
    else if !HasDigit(v) then Some(NoDigit)
    else None
  }

  /**
   * A confirmation field: its own length bounds, then `passwords_match`,
   * which compares it with the password only when the password is among the
   * values already accepted.
   */
  function ConfirmProblem(confirm: string, accepted: Option<string>): (r: Option<Problem>)
    ensures r.None? <==> 8 <= |confirm| <= 100 && (accepted.Some? ==> confirm == accepted.value)
    ensures r == Some(Mismatch) ==> accepted.Some? && confirm != accepted.value
    ensures accepted.None? ==> r != Some(Mismatch)
  {
    if !(8 <= |confirm| <= 100) then Some(Length)
    else if accepted.Some? && confirm != accepted.value then Some(Mismatch)
    else None
  }

  /** The password as later validators see it: present only if it was accepted. */
  function Accepted(password: string, problem: Option<Problem>): Option<string> {
    if problem.None? then Some(password) else None
  }

  function ErrorsOf(field: string, problem: Option<Problem>): seq<FieldError> {
    if problem.Some? then [FieldError(field, problem.value)] else []
  }

  /** `Field(None, max_length=n)` on an optional text field. */
  predicate AtMost(v: Option<string>, n: nat) {
    v.None? || |v.value| <= n
  }

  // ---------------------------------------------------------------------
  // Sign-up

  /** The fields of a `UserCreate` as supplied; the e-mail address is taken as given. */
  datatype UserCreateInput = UserCreateInput(
    email: string,
    fullName: string,
    companyName: Option<string>,
    phone: Option<string>,
    isActive: Option<bool>,
    password: string,
    confirmPassword: string)

  datatype NewUser = NewUser(
    email: string,
    fullName: string,
    companyName: Option<string>,
    phone: Option<string>,
    isActive: bool,
    password: string)

  /** The errors of a sign-up request, field by field in declaration order. */
  function UserCreateErrors(input: UserCreateInput): (r: seq<FieldError>)
    ensures r == [] <==>
      2 <= |input.fullName| <= 100 && AtMost(input.companyName, 100) && AtMost(input.phone, 15)
      && StrongPassword(input.password) && input.confirmPassword == input.password
  {
    var pw := PasswordProblem(input.password);
    (if 2 <= |input.fullName| <= 100 then [] else [FieldError("full_name", Length)])
    + (if AtMost(input.companyName, 100) then [] else [FieldError("company_name", Length)])
    + (if AtMost(input.phone, 15) then [] else [FieldError("phone", Length)])
    + ErrorsOf("password", pw)
    + ErrorsOf("confirm_password", ConfirmProblem(input.confirmPassword, Accepted(input.password, pw)))
  }

  /** `UserCreate(...)`: a valid request becomes a user, active unless stated otherwise. */
  function ValidateUserCreate(input: UserCreateInput): (r: Result<NewUser, seq<FieldError>>)
    ensures r.Err? <==> UserCreateErrors(input) != []
    ensures r.Err? ==> r.error == UserCreateErrors(input)
    ensures r.Ok? ==> r.value.password == input.password && StrongPassword(r.value.password)
    ensures r.Ok? ==> r.value.fullName == input.fullName && r.value.isActive == input.isActive.GetOr(true)
  {
    var errors := UserCreateErrors(input);
    if errors != [] then Err(errors)
    else Ok(NewUser(input.email, input.fullName, input.companyName, input.phone, input.isActive.GetOr(true), input.password))
  }

  /**
   * A weak password is reported once, for itself: the confirmation is then
   * never reported as a mismatch, whatever it holds.
   */
  lemma WeakPasswordHidesMismatch(input: UserCreateInput)
    requires !StrongPassword(input.password)
    ensures FieldError("confirm_password", Mismatch) !in UserCreateErrors(input)
    ensures exists p :: FieldError("password", p) in UserCreateErrors(input)
  {
    var pw := PasswordProblem(input.password);
    var r := UserCreateErrors(input);
    var head := (if 2 <= |input.fullName| <= 100 then [] else [FieldError("full_name", Length)])
      + (if AtMost(input.companyName, 100) then [] else [FieldError("company_name", Length)])
      + (if AtMost(input.phone, 15) then [] else [FieldError("phone", Length)]);
    assert r == head + [FieldError("password", pw.value)]
      + ErrorsOf("confirm_password", ConfirmProblem(input.confirmPassword, None));
    assert r[|head|] == FieldError("password", pw.value);
  }

  /** A strong password with a different confirmation of valid length is reported as a mismatch. */
  lemma MismatchReported(input: UserCreateInput)
    requires StrongPassword(input.password) && 8 <= |input.confirmPassword| <= 100
    requires input.confirmPassword != input.password
    ensures UserCreateErrors(input)[|UserCreateErrors(input)| - 1] == FieldError("confirm_password", Mismatch)
  {
  }

  // ---------------------------------------------------------------------
  // Password change and reset

  datatype PasswordChangeInput = PasswordChangeInput(currentPassword: string, newPassword: string, confirmNewPassword: string)

  /** `PasswordChange`: a non-empty current password, the complexity rule on the new one, and a matching confirmation. */
  function PasswordChangeErrors(input: PasswordChangeInput): (r: seq<FieldError>)
    ensures r == [] <==>
      |input.currentPassword| >= 1 && StrongPassword(input.newPassword)
      && input.confirmNewPassword == input.newPassword
  {
    var pw := PasswordProblem(input.newPassword);
    (if |input.currentPassword| >= 1 then [] else [FieldError("current_password", Length)])
    + ErrorsOf("new_password", pw)
    + ErrorsOf("confirm_new_password", ConfirmProblem(input.confirmNewPassword, Accepted(input.newPassword, pw)))
  }

  datatype ResetPasswordInput = ResetPasswordInput(token: string, newPassword: string, confirmNewPassword: string)

  /** `ResetPassword`: length bounds on both fields and a matching confirmation, with no complexity rule. */
  function ResetPasswordErrors(input: ResetPasswordInput): (r: seq<FieldError>)
    ensures r == [] <==>
      8 <= |input.newPassword| <= 100 && input.confirmNewPassword == input.newPassword
    ensures forall e :: e in r ==> e.problem == Length || e.problem == Mismatch
  {
    var pw := if 8 <= |input.newPassword| <= 100 then None else Some(Length);
    ErrorsOf("new_password", pw)
    + ErrorsOf("confirm_new_password", ConfirmProblem(input.confirmNewPassword, Accepted(input.newPassword, pw)))
  }

  /** Sign-up and password change apply the same rule to the new password. */
  lemma ChangeAndSignUpAgree(change: PasswordChangeInput, signUp: UserCreateInput)
    requires change.newPassword == signUp.password && change.confirmNewPassword == signUp.confirmPassword
    requires |change.currentPassword| >= 1
    requires 2 <= |signUp.fullName| <= 100 && AtMost(signUp.companyName, 100) && AtMost(signUp.phone, 15)
    ensures PasswordChangeErrors(change) == [] <==> UserCreateErrors(signUp) == []
  {
  }

  /** Reset accepts every password sign-up accepts, and some that sign-up refuses: "password" has no capital or digit. */
  lemma ResetIsLaxer(token: string, v: string)
    ensures StrongPassword(v) ==> ResetPasswordErrors(ResetPasswordInput(token, v, v)) == []
    ensures ResetPasswordErrors(ResetPasswordInput(token, "password", "password")) == []
    ensures !StrongPassword("password")
  {
    assert !HasUpper("password");
  }

  // ---------------------------------------------------------------------
  // Tokens

  datatype Token = Token(accessToken: string, refreshToken: string, tokenType: string, expiresIn: int)

  /** `Token(...)`: a bearer token valid for 30 minutes unless stated otherwise. */
  function MakeToken(access: string, refresh: string, tokenType: Option<string>, expiresIn: Option<int>): (r: Token)
    ensures r.accessToken == access && r.refreshToken == refresh
    ensures tokenType.None? ==> r.tokenType == "bearer"
    ensures expiresIn.None? ==> r.expiresIn == 30 * 60
    ensures tokenType.Some? ==> r.tokenType == tokenType.value
    ensures expiresIn.Some? ==> r.expiresIn == expiresIn.value
  {
    Token(access, refresh, tokenType.GetOr("bearer"), expiresIn.GetOr(1800))
  }
}
