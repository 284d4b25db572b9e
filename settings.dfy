/**
 * The rules of src/pages/Settings.jsx: the profile-completion percentage, the local profile
 * update and the checks of the password-change form.
 *
 * A user is the parsed `localStorage` object, written as a map from field name to text.
 */
module Settings {
  import opened Common

  type User = map<string, string>

  /** A field JavaScript reads as true: present and not empty. */
  predicate Filled(u: User, field: string) {
    field in u && u[field] != ""
  }

  /** The percentage `getProfileCompletion` reports. */
  function Completion(user: Option<User>): (c: nat)
    ensures c in {0, 50, 100}
    ensures c == 100 <==> user.Some? && Filled(user.value, "name") && Filled(user.value, "email")
    ensures c == 0 <==> user.None? || (!Filled(user.value, "name") && !Filled(user.value, "email"))
  {
    match user
    case None => 0
    case Some(u) => (if Filled(u, "name") then 50 else 0) + (if Filled(u, "email") then 50 else 0)
  }

  /** `getProfileCompletion`: a counter that each filled field raises by 50. */
  method GetProfileCompletion(user: Option<User>) returns (completion: nat)
    ensures completion == Completion(user)
  {
    if user.None? {
      return 0;
    }
    var u := user.value;
    completion := 0;
    if Filled(u, "name") {
      completion := completion + 50;
    }
    if Filled(u, "email") {
      completion := completion + 50;
    }
  }

  datatype ProfileForm = ProfileForm(name: string, email: string)

  /** `{ ...user, ...profileForm }`: spreading a missing user adds nothing. */
  function UpdatedUser(user: Option<User>, form: ProfileForm): (r: User)
    ensures r.Keys == (if user.Some? then user.value.Keys else {}) + {"name", "email"}
    ensures r["name"] == form.name && r["email"] == form.email
    ensures user.Some? ==> forall k :: k in user.value && k != "name" && k != "email" ==> r[k] == user.value[k]
  {
    (if user.Some? then user.value else map[]) + map["name" := form.name, "email" := form.email]
  }

  /** After an update the completion depends on the form alone. */
  lemma {:induction false} CompletionAfterUpdate(user: Option<User>, form: ProfileForm)
    ensures Completion(Some(UpdatedUser(user, form)))
            == (if form.name != "" then 50 else 0) + (if form.email != "" then 50 else 0)
  {
    var u := UpdatedUser(user, form);
    assert Filled(u, "name") <==> form.name != "";
    assert Filled(u, "email") <==> form.email != "";
  }

  datatype PasswordForm = PasswordForm(currentPassword: string, newPassword: string, confirmPassword: string)

  const EmptyPasswordForm: PasswordForm := PasswordForm("", "", "")

  /** The error text, the password form and whether it stays open after `handlePasswordChange`. */
  datatype PasswordOutcome = PasswordOutcome(error: string, form: PasswordForm, open: bool)

  /** `handlePasswordChange`: the error is cleared, then the match check, then the length check. */
  function PasswordChange(form: PasswordForm, open: bool): PasswordOutcome {
    if form.newPassword != form.confirmPassword then
      PasswordOutcome("New passwords do not match", form, open)
    else if |form.newPassword| < 6 then
      PasswordOutcome("Password must be at least 6 characters long", form, open)
    else
      PasswordOutcome("", EmptyPasswordForm, false)
  }

  /**
   * A mismatch is reported whatever the length; the length is reported only for matching
   * passwords; a change is accepted exactly when both checks pass, and then all three fields
   * are cleared and the form closes. A rejected change keeps the form as typed.
   */
  lemma PasswordChangeCases(form: PasswordForm, open: bool)
    ensures var o := PasswordChange(form, open);
            && (form.newPassword != form.confirmPassword ==> o.error == "New passwords do not match")
            && (o.error == "Password must be at least 6 characters long" <==>
                  form.newPassword == form.confirmPassword && |form.newPassword| < 6)
            && (o.error == "" <==> form.newPassword == form.confirmPassword && |form.newPassword| >= 6)
            && (o.error == "" ==> o.form == PasswordForm("", "", "") && !o.open)
            && (o.error != "" ==> o.form == form && o.open == open)
  {
  }
}
