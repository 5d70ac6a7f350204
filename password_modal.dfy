/**
 * The change-password dialog: four checks on the three fields, run in a
 * fixed order with the first failure reported, then one call to the auth
 * context's password change, whose answer is an input.
 */
module PasswordModal {
  import opened Wrappers

  /** Why a submission was refused before contacting the auth context, in check order. */
  datatype Rejection = EmptyField | Mismatch | TooShort | Unchanged

  function RejectionMessage(r: Rejection): string
  {
    match r
    case EmptyField => "Semua field harus diisi"
    case Mismatch => "Password baru dan konfirmasi password tidak cocok"
    case TooShort => "Password baru minimal 6 karakter"
    case Unchanged => "Password baru harus berbeda dengan password lama"
  }

  const MinLength: nat := 6

  /** The validation chain of `handleSubmit`; None lets the submission through. */
  function Validate(current: string, newPassword: string, confirm: string): (r: Option<Rejection>)
    ensures r == Some(EmptyField) <==> current == "" || newPassword == "" || confirm == ""
    ensures r == Some(Mismatch) <==>
      current != "" && newPassword != "" && confirm != "" && newPassword != confirm
    ensures r == Some(TooShort) <==>
      current != "" && newPassword != "" && newPassword == confirm && |newPassword| < MinLength
    ensures r == Some(Unchanged) <==>
      newPassword == confirm && |newPassword| >= MinLength && current == newPassword
    ensures r.None? <==>
      current != "" && newPassword == confirm && |newPassword| >= MinLength && current != newPassword
  {
    if current == "" || newPassword == "" || confirm == "" then Some(EmptyField)
    else if newPassword != confirm then Some(Mismatch)
    else if |newPassword| < MinLength then Some(TooShort)
    else if current == newPassword then Some(Unchanged)
    else None
  }

  /** The answer of the password change: its returned error message (None for success), or an exception. */
  datatype UpdateOutcome = Returned(error: Option<string>) | Threw

  datatype Toast = ErrorToast(message: string) | SuccessToast(message: string)

  const Changed: string := "Password berhasil diubah!"
  const ChangeFailed: string := "Gagal mengubah password"
  const ChangeCrashed: string := "Terjadi kesalahan saat mengubah password"

  /** The toast a submission shows; success only when the checks pass and the change reports no error. */
  function Feedback(current: string, newPassword: string, confirm: string, outcome: UpdateOutcome): (t: Toast)
    ensures t.SuccessToast? <==> Validate(current, newPassword, confirm).None? && outcome == Returned(None)
    ensures t.SuccessToast? ==> t.message == Changed
    ensures Validate(current, newPassword, confirm).Some? ==>
      t == ErrorToast(RejectionMessage(Validate(current, newPassword, confirm).value))
    ensures Validate(current, newPassword, confirm).None? && outcome.Returned? && outcome.error.Some? ==>
      t == ErrorToast(if outcome.error.value != "" then outcome.error.value else ChangeFailed)
    ensures Validate(current, newPassword, confirm).None? && outcome.Threw? ==> t == ErrorToast(ChangeCrashed)
  {
    match Validate(current, newPassword, confirm)
    case Some(r) => ErrorToast(RejectionMessage(r))
    case None =>
      match outcome
      case Threw => ErrorToast(ChangeCrashed)
      case Returned(None) => SuccessToast(Changed)
      case Returned(Some(m)) => ErrorToast(if m != "" then m else ChangeFailed)
  }

  /** Every toast carries a non-empty message. */
  lemma FeedbackNeverBlank(current: string, newPassword: string, confirm: string, outcome: UpdateOutcome)
    ensures Feedback(current, newPassword, confirm, outcome).message != ""
  {
  }

  class ChangePasswordModal {
    var currentPassword: string
    var newPassword: string
    var confirmPassword: string
    var isLoading: bool
    /** The parent's `isOpen`; `onClose` clears it. */
    var open: bool

    constructor (isOpen: bool)
      ensures currentPassword == "" && newPassword == "" && confirmPassword == ""
      ensures !isLoading && open == isOpen
    {
      currentPassword := "";
      newPassword := "";
      confirmPassword := "";
      isLoading := false;
      open := isOpen;
    }

    /** `handleClose`: clears the three fields and closes the dialog. */
    method HandleClose()
      modifies this
      ensures currentPassword == "" && newPassword == "" && confirmPassword == ""
      ensures !open && isLoading == old(isLoading)
    {
      currentPassword := "";
      newPassword := "";
      confirmPassword := "";
      open := false;
    }

    /**
     * `handleSubmit`. `request` is the (current, new) pair passed to the
     * password change, None when a check refused the submission.
     */
    method HandleSubmit(outcome: UpdateOutcome) returns (request: Option<(string, string)>, toast: Toast)
      modifies this
      ensures toast == Feedback(old(currentPassword), old(newPassword), old(confirmPassword), outcome)
      ensures request.Some? <==> Validate(old(currentPassword), old(newPassword), old(confirmPassword)).None?
      ensures request.Some? ==> request.value == (old(currentPassword), old(newPassword)) && !isLoading
      ensures request.None? ==> isLoading == old(isLoading)
      ensures toast.SuccessToast? ==> currentPassword == "" && newPassword == "" && confirmPassword == "" && !open
      ensures !toast.SuccessToast? ==>
        currentPassword == old(currentPassword) && newPassword == old(newPassword) &&
        confirmPassword == old(confirmPassword) && open == old(open)
    {
      var rejection := Validate(currentPassword, newPassword, confirmPassword);
      if rejection.Some? {
        request := None;
        toast := ErrorToast(RejectionMessage(rejection.value));
        return;
      }
      isLoading := true;
      request := Some((currentPassword, newPassword));
      match outcome {
        case Threw =>
          toast := ErrorToast(ChangeCrashed);
        case Returned(error) =>
          if error.Some? {
            toast := ErrorToast(if error.value != "" then error.value else ChangeFailed);
          } else {
            toast := SuccessToast(Changed);
            HandleClose();
          }
      }
      isLoading := false;
    }
  }
}
