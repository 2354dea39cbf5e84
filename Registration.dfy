/**
 * The self-registration view of email_username_auth/views.py. Registering
 * creates a user and mails a login code; registering again with an address
 * that is already taken mails a login code instead of showing the error.
 */
module Registration {
  import opened Wrappers
  import opened Http
  import opened Accounts

  /** The model's USERNAME_FIELD. */
  const UsernameField := "email"

  /** The error code of a violated uniqueness constraint. */
  const UniqueCode := "unique"

  /** One validation error of a form field, with its code. */
  datatype FieldError = FieldError(code: string)

  /** `form.errors.as_data()`: the errors of each field that has some. */
  type FormErrors = map<string, seq<FieldError>>

  /**
   * `_user_is_already_registered`: the only thing wrong with the form is that
   * the address is taken, i.e. the username field has exactly one error and
   * it is a uniqueness error.
   */
  function UserIsAlreadyRegistered(errors: FormErrors): (r: bool)
    ensures UsernameField !in errors ==> !r
    ensures r <==> UsernameField in errors && |errors[UsernameField]| == 1 && errors[UsernameField][0].code == UniqueCode
  {
    if UsernameField !in errors then false
    else
      var fieldErrors := errors[UsernameField];
      if |fieldErrors| == 1 && fieldErrors[0].code == UniqueCode then true
      else false
  }

  /** A uniqueness error reported together with any other error of the field does not count as "already registered". */
  lemma SecondErrorMeansNotRegistered(errors: FormErrors, other: FieldError)
    requires UsernameField in errors && UserIsAlreadyRegistered(errors)
    ensures !UserIsAlreadyRegistered(errors[UsernameField := errors[UsernameField] + [other]])
  {
  }

  /** A login code sent out: the user it is for and the page to go to after logging in. */
  datatype LoginCode = LoginCode(username: string, next: Option<string>)

  /** What the browser gets back. */
  datatype Response =
    | SentMail
    | FormErrorsShown(errors: FormErrors)
    | Error(error: CreateError)
    | MissingField(field: string)

  /** One registration request, with the mail it causes. */
  class RegistrationView {
    const manager: UserManager
    const query: QueryDict
    /** The login codes mailed so far; `authenticate` and the mail delivery are not modelled. */
    var outbox: seq<LoginCode>

    constructor (manager: UserManager, query: QueryDict)
      ensures this.manager == manager && this.query == query && outbox == []
    {
      this.manager := manager;
      this.query := query;
      outbox := [];
    }

    /** `_send_login_code`: a code for `username`, remembering the `next` query parameter. */
    method SendLoginCode(username: string)
      modifies this
      ensures outbox == old(outbox) + [LoginCode(username, QueryGet(query, "next"))]
    {
      outbox := outbox + [LoginCode(username, QueryGet(query, "next"))];
    }

    /** `register`: `create_user` with the cleaned username and no password. */
    method Register(cleaned: map<string, string>) returns (r: Result<User, CreateError>)
      requires UsernameField in cleaned
      modifies manager
      ensures cleaned[UsernameField] == "" ==> r == Failure(ValueError(EmailRequired)) && manager.users == old(manager.users)
      ensures cleaned[UsernameField] != "" ==>
        && r == Success(User(manager.normalizeEmail(cleaned[UsernameField]), Unusable, UserDefaults(map[])))
        && manager.users == old(manager.users) + [r.value]
    {
      r := manager.CreateUser(Some(cleaned[UsernameField]), None, map[]);
    }

    /**
     * `form_valid`: registers the user and mails a login code to the address
     * as stored, i.e. normalised; a failed creation sends nothing.
     */
    method FormValid(cleaned: map<string, string>) returns (resp: Response)
      requires UsernameField in cleaned
      modifies this, manager
      ensures cleaned[UsernameField] == "" ==>
        resp == Error(ValueError(EmailRequired)) && outbox == old(outbox) && manager.users == old(manager.users)
      ensures cleaned[UsernameField] != "" ==>
        && resp == SentMail
        && manager.users == old(manager.users) + [User(manager.normalizeEmail(cleaned[UsernameField]), Unusable, UserDefaults(map[]))]
        && outbox == old(outbox) + [LoginCode(manager.normalizeEmail(cleaned[UsernameField]), QueryGet(query, "next"))]
    {
      var created := Register(cleaned);
      if created.Failure? {
        return Error(created.error);
      }
      SendLoginCode(GetShortName(created.value));
      resp := SentMail;
    }

    /**
     * `form_invalid`: when the address is already registered, a login code is
     * mailed to the address as submitted and the same page as for a new
     * registration is shown; otherwise the errors are shown and nothing is sent.
     * No user is created either way.
     */
    method FormInvalid(errors: FormErrors, data: map<string, string>) returns (resp: Response)
      modifies this
      ensures UserIsAlreadyRegistered(errors) && UsernameField in data ==>
        resp == SentMail && outbox == old(outbox) + [LoginCode(data[UsernameField], QueryGet(query, "next"))]
      ensures UserIsAlreadyRegistered(errors) && UsernameField !in data ==>
        resp == MissingField(UsernameField) && outbox == old(outbox)
      ensures !UserIsAlreadyRegistered(errors) ==> resp == FormErrorsShown(errors) && outbox == old(outbox)
    {
      if UserIsAlreadyRegistered(errors) {
        if UsernameField !in data {
          return MissingField(UsernameField);
        }
        SendLoginCode(data[UsernameField]);
        return SentMail;
      }
      resp := FormErrorsShown(errors);
    }
  }
}
