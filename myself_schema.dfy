/** `PasswordResetRequest`: a password change by the signed-in user. */
module MyselfSchema {
  import opened Wrappers
  import opened UsersSettings
  import opened UsersSchema

  datatype PasswordResetRequest = PasswordResetRequest(oldPassword: string, newPassword: string, confirmPassword: string)

  /**
   * How a reset request is refused. A `Password` field that fails the policy is left out of
   * `values`, and the root validator, which pydantic v1 still calls, then raises `KeyError` on
   * `values["new"]` or `values["confirm"]`: the policy message never reaches the caller.
   */
  datatype ResetError = MissingField(field: string) | Mismatch

  /**
   * The two `Password` fields are checked against the policy first, then the root validator
   * reads `new`, then `confirm`, and compares them ("New password and confirm password do not
   * match"). The old password is a plain string with no check.
   */
  function ValidateReset(p: PasswordPolicy, oldPassword: string, newPassword: string, confirmPassword: string)
    : (r: Result<PasswordResetRequest, ResetError>)
    ensures r.Success? <==> ValidatePassword(p, newPassword).Success? && ValidatePassword(p, confirmPassword).Success?
                            && newPassword == confirmPassword
    ensures r.Success? ==> r.value == PasswordResetRequest(oldPassword, newPassword, confirmPassword)
    ensures ValidatePassword(p, newPassword).Failure? ==> r == Failure(MissingField("new"))
    ensures ValidatePassword(p, newPassword).Success? && ValidatePassword(p, confirmPassword).Failure?
            ==> r == Failure(MissingField("confirm"))
    ensures ValidatePassword(p, newPassword).Success? && ValidatePassword(p, confirmPassword).Success?
            && newPassword != confirmPassword
            ==> r == Failure(Mismatch)
  {
    match ValidatePassword(p, newPassword)
    case Failure(_) => Failure(MissingField("new"))
    case Success(n) =>
      match ValidatePassword(p, confirmPassword)
      case Failure(_) => Failure(MissingField("confirm"))
      case Success(c) =>
        if n != c then Failure(Mismatch)
        else Success(PasswordResetRequest(oldPassword, n, c))
  }

  /** The old password never decides the outcome. */
  lemma OldPasswordUnchecked(p: PasswordPolicy, old1: string, old2: string, newPassword: string, confirmPassword: string)
    ensures ValidateReset(p, old1, newPassword, confirmPassword).Success?
            == ValidateReset(p, old2, newPassword, confirmPassword).Success?
  {
  }

  /** An accepted request's new password complies with an active policy. */
  lemma AcceptedNewPasswordComplies(p: PasswordPolicy, oldPassword: string, newPassword: string, confirmPassword: string)
    requires p.active
    requires ValidateReset(p, oldPassword, newPassword, confirmPassword).Success?
    ensures Complies(p, newPassword) && confirmPassword == newPassword
  {
  }
}
