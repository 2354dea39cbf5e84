/**
 * The admin forms of email_username_auth/forms.py: creating a user with a
 * confirmed password, and changing a user without ever changing its password
 * through the form.
 */
module AccountForms {
  import opened Wrappers
  import opened Accounts

  datatype ValidationError = ValidationError(message: string)

  const PasswordMismatch := "Passwords don't match"

  /** Python's truth test on a cleaned field: a missing field and "" are false. */
  predicate Given(p: Option<string>)
  {
    p.Some? && p.value != ""
  }

  /**
   * `UserCreationForm.clean_password2`: the two entries must agree when both
   * were given; the cleaned value is the second entry, unchanged.
   */
  function CleanPassword2(password1: Option<string>, password2: Option<string>): (r: Result<Option<string>, ValidationError>)
    ensures r.Failure? <==> Given(password1) && Given(password2) && password1 != password2
    ensures r.Failure? ==> r.error == ValidationError(PasswordMismatch)
    ensures r.Success? ==> r.value == password2
  {
    if Given(password1) && Given(password2) && password1 != password2 then Failure(ValidationError(PasswordMismatch))
    else Success(password2)
  }

  /**
   * When both entries were given and the check passed, the password that
   * `save` sets is the one typed twice.
   */
  lemma ConfirmedPasswordIsSecondEntry(password1: string, password2: string)
    requires password1 != "" && password2 != ""
    requires CleanPassword2(Some(password1), Some(password2)).Success?
    ensures password1 == password2
    ensures CleanPassword2(Some(password1), Some(password2)).value == Some(password1)
  {
  }

  /**
   * `UserCreationForm.save`: the unsaved user the model form built, with its
   * password set from the first entry; it is written to the table only when
   * `commit` is true.
   */
  method SaveCreationForm(manager: UserManager, unsaved: User, password1: string, commit: bool) returns (user: User)
    modifies manager
    ensures user == unsaved.(password := HashOf(password1))
    ensures manager.users == old(manager.users) + (if commit then [user] else [])
  {
    user := unsaved;
    user := user.(password := SetPassword(Some(password1)));
    if commit {
      manager.Save(user);
    }
  }

  datatype KeyError = KeyError(key: string)

  /**
   * `UserChangeForm.clean_password`: the password the form was initialised
   * with, whatever was submitted (the submitted value is not even read); a
   * form initialised without one fails with KeyError.
   */
  function CleanPassword(initial: map<string, string>): (r: Result<string, KeyError>)
    ensures r.Success? <==> "password" in initial
    ensures r.Success? ==> r.value == initial["password"]
    ensures r.Failure? ==> r.error == KeyError("password")
  {
    if "password" in initial then Success(initial["password"]) else Failure(KeyError("password"))
  }
}
