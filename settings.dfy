/** The settings page: the profile and password forms' validation, the
    profile form's initial values, and the marketplace connection switch.
    The update handlers have no backend call yet: they only report success. */
module Settings {
  import opened Wrappers
  import opened Types
  import Platform

  datatype Field = Name | Email | CurrentPassword | NewPassword | ConfirmPassword
  datatype Issue = Issue(field: Field, message: string)

  datatype ProfileForm = ProfileForm(name: string, email: string)
  datatype PasswordForm = PasswordForm(currentPassword: string, newPassword: string, confirmPassword: string)

  const NAME_TOO_SHORT: string := "Nome deve ter no mínimo 2 caracteres"
  const INVALID_EMAIL: string := "Email inválido"
  const PASSWORD_TOO_SHORT: string := "Senha deve ter no mínimo 8 caracteres"
  const PASSWORDS_DIFFER: string := "As senhas não coincidem"

  /** `profileSchema`: a name of at least 2 characters and a well-formed
      email; `emailValid` is the email check's verdict on `f.email`. */
  function ProfileIssues(f: ProfileForm, emailValid: bool): (issues: seq<Issue>)
    ensures Issue(Name, NAME_TOO_SHORT) in issues <==> |f.name| < 2
    ensures Issue(Email, INVALID_EMAIL) in issues <==> !emailValid
    ensures issues == [] <==> |f.name| >= 2 && emailValid
  {
    (if |f.name| < 2 then [Issue(Name, NAME_TOO_SHORT)] else [])
    + (if !emailValid then [Issue(Email, INVALID_EMAIL)] else [])
  }

  /** `passwordSchema`: both passwords at least 8 characters, and the
      confirmation equal to the new password, reported on the confirmation
      field. The equality check runs even when a length check failed, since a
      length failure does not stop the object's refinement. */
  function PasswordIssues(f: PasswordForm): (issues: seq<Issue>)
    ensures Issue(CurrentPassword, PASSWORD_TOO_SHORT) in issues <==> |f.currentPassword| < 8
    ensures Issue(NewPassword, PASSWORD_TOO_SHORT) in issues <==> |f.newPassword| < 8
    ensures Issue(ConfirmPassword, PASSWORDS_DIFFER) in issues <==> f.newPassword != f.confirmPassword
    ensures forall i :: 0 <= i < |issues| ==> issues[i].field != ConfirmPassword || issues[i].message == PASSWORDS_DIFFER
    ensures issues == [] <==>
              |f.currentPassword| >= 8 && |f.newPassword| >= 8 && f.newPassword == f.confirmPassword
  {
    (if |f.currentPassword| < 8 then [Issue(CurrentPassword, PASSWORD_TOO_SHORT)] else [])
    + (if |f.newPassword| < 8 then [Issue(NewPassword, PASSWORD_TOO_SHORT)] else [])
    + (if f.newPassword != f.confirmPassword then [Issue(ConfirmPassword, PASSWORDS_DIFFER)] else [])
  }

  /** The profile form opens with the signed-in user's name and email, or
      empty fields without a user. */
  function DefaultProfile(user: Option<User>): (f: ProfileForm)
    ensures user.Some? ==> f.name == user.value.name && f.email == user.value.email
    ensures user.None? ==> f == ProfileForm([], [])
  {
    if user.Some? then ProfileForm(user.value.name, user.value.email) else ProfileForm([], [])
  }

  /** A user whose stored name is shorter than two characters cannot save
      the profile form as it opens. */
  lemma ShortStoredNameBlocksProfile(user: User, emailValid: bool)
    requires |user.name| < 2
    ensures ProfileIssues(DefaultProfile(Some(user)), emailValid) != []
  {
    assert Issue(Name, NAME_TOO_SHORT) in ProfileIssues(DefaultProfile(Some(user)), emailValid);
  }

  class SettingsPage {
    var mlConnected: bool
    var isUpdatingProfile: bool
    var isUpdatingPassword: bool
    var passwordResets: nat
    var toasts: seq<Platform.Toast>

    constructor ()
      ensures !mlConnected && !isUpdatingProfile && !isUpdatingPassword && passwordResets == 0 && toasts == []
    {
      mlConnected := false;
      isUpdatingProfile := false;
      isUpdatingPassword := false;
      passwordResets := 0;
      toasts := [];
    }

    /** Saving the profile: refused by the schema, or reported as saved. */
    method SubmitProfile(f: ProfileForm, emailValid: bool)
      modifies this
      ensures ProfileIssues(f, emailValid) != [] ==> unchanged(this)
      ensures ProfileIssues(f, emailValid) == [] ==>
                toasts == old(toasts) + [Platform.ToastSuccess("Perfil atualizado com sucesso!")] && !isUpdatingProfile
      ensures mlConnected == old(mlConnected) && passwordResets == old(passwordResets)
      ensures isUpdatingPassword == old(isUpdatingPassword)
    {
      if ProfileIssues(f, emailValid) != [] {
        return;
      }
      isUpdatingProfile := true;
      toasts := toasts + [Platform.ToastSuccess("Perfil atualizado com sucesso!")];
      isUpdatingProfile := false;
    }

    /** Changing the password: refused by the schema, or reported as saved
        and the form cleared. */
    method SubmitPassword(f: PasswordForm)
      modifies this
      ensures PasswordIssues(f) != [] ==> unchanged(this)
      ensures PasswordIssues(f) == [] ==>
                && toasts == old(toasts) + [Platform.ToastSuccess("Senha atualizada com sucesso!")]
                && passwordResets == old(passwordResets) + 1
                && !isUpdatingPassword
      ensures mlConnected == old(mlConnected) && isUpdatingProfile == old(isUpdatingProfile)
    {
      if PasswordIssues(f) != [] {
        return;
      }
      isUpdatingPassword := true;
      toasts := toasts + [Platform.ToastSuccess("Senha atualizada com sucesso!")];
      passwordResets := passwordResets + 1;
      isUpdatingPassword := false;
    }

    /** Connecting the marketplace account is not available yet. */
    method HandleConnectML()
      modifies this
      ensures toasts == old(toasts) + [Platform.ToastInfo("Funcionalidade em desenvolvimento")]
      ensures mlConnected == old(mlConnected) && passwordResets == old(passwordResets)
      ensures isUpdatingProfile == old(isUpdatingProfile) && isUpdatingPassword == old(isUpdatingPassword)
    {
      toasts := toasts + [Platform.ToastInfo("Funcionalidade em desenvolvimento")];
    }

    /** Disconnecting: only after confirmation, and then always succeeds. */
    method HandleDisconnectML(confirmed: bool)
      modifies this
      ensures !confirmed ==> unchanged(this)
      ensures confirmed ==> !mlConnected && toasts == old(toasts) + [Platform.ToastSuccess("Desconectado do Mercado Livre")]
      ensures passwordResets == old(passwordResets)
      ensures isUpdatingProfile == old(isUpdatingProfile) && isUpdatingPassword == old(isUpdatingPassword)
    {
      if !confirmed {
        return;
      }
      mlConnected := false;
      toasts := toasts + [Platform.ToastSuccess("Desconectado do Mercado Livre")];
    }
  }
}
