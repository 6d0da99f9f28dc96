/**
 * The password-change form's schema: each of the three entries needs at
 * least six characters, and the new password must equal its confirmation.
 * The length checks do not stop validation, so the schema reports a
 * mismatch alongside any length problems.
 */
module PasswordForm {

  datatype Values = Values(currentPassword: string, newPassword: string, confirmPassword: string)

  datatype Path = CurrentPassword | NewPassword | ConfirmPassword

  /** The checks of the schema, in the order it runs them. */
  datatype Check = CurrentMin | NewMin | ConfirmMin | Match

  /** The form field an issue is shown under. */
  function PathOf(c: Check): Path {
    match c
    case CurrentMin => CurrentPassword
    case NewMin => NewPassword
    case ConfirmMin => ConfirmPassword
    case Match => ConfirmPassword
  }

  function Message(c: Check): string {
    match c
    case CurrentMin => "Masukkan kata sandi lama Anda"
    case NewMin => "Kata sandi baru minimal 6 karakter"
    case ConfirmMin => "Konfirmasi kata sandi baru Anda"
    case Match => "Kata sandi tidak cocok"
  }

  const MinLength: nat := 6

  function MinCheck(c: Check, value: string): seq<Check> {
    if |value| < MinLength then [c] else []
  }

  /** The failed checks, in order; the form is accepted when there are none. */
  function Validate(v: Values): (failed: seq<Check>)
    ensures |failed| <= 4
  {
    MinCheck(CurrentMin, v.currentPassword)
    + MinCheck(NewMin, v.newPassword)
    + MinCheck(ConfirmMin, v.confirmPassword)
    + (if v.newPassword != v.confirmPassword then [Match] else [])
  }

  /** Which check fails for which values. */
  predicate Fails(v: Values, c: Check) {
    match c
    case CurrentMin => |v.currentPassword| < 6
    case NewMin => |v.newPassword| < 6
    case ConfirmMin => |v.confirmPassword| < 6
    case Match => v.newPassword != v.confirmPassword
  }

  /** A check is reported exactly when it fails. */
  lemma ReportedIffFails(v: Values, c: Check)
    ensures c in Validate(v) <==> Fails(v, c)
  {
  }

  /** The form is accepted exactly when all three entries are long enough and the new password is confirmed. */
  lemma AcceptedIff(v: Values)
    ensures Validate(v) == [] <==>
      |v.currentPassword| >= 6 && |v.newPassword| >= 6 && |v.confirmPassword| >= 6
      && v.newPassword == v.confirmPassword
  {
  }

  /** A mismatch shows on the confirmation field with its own message. */
  lemma MismatchOnConfirmation(v: Values)
    requires v.newPassword != v.confirmPassword
    ensures Match in Validate(v)
    ensures PathOf(Match) == ConfirmPassword && Message(Match) == "Kata sandi tidak cocok"
  {
  }

  /** The current password is only length-checked: reusing it as the new password is accepted. */
  lemma ReusingCurrentAccepted(p: string)
    requires |p| >= 6
    ensures Validate(Values(p, p, p)) == []
  {
  }

  /** A confirmed new password of five characters is refused, whatever the current password. */
  lemma FiveCharactersRefused(current: string, p: string)
    requires |p| == 5
    ensures NewMin in Validate(Values(current, p, p)) && Validate(Values(current, p, p)) != []
  {
  }

  /** The state the form is reset to after a successful change. */
  const Reset: Values := Values("", "", "")

  /** The reset form fails the three length checks and nothing else. */
  lemma ResetFails()
    ensures Validate(Reset) == [CurrentMin, NewMin, ConfirmMin]
  {
  }
}
