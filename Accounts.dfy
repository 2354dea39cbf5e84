/**
 * The custom user model of email_username_auth/models.py, in which the email
 * address is the username, and its manager, which creates ordinary users and
 * superusers from keyword arguments.
 *
 * Keyword arguments are a map from field name to value. Hashing a password is
 * kept symbolic: a user's password is the raw text it was set from, or the
 * unusable marker Django stores when the password is None.
 */
module Accounts {
  import opened Wrappers

  /** A value passed as a keyword argument; `True` in Python is `BoolValue(true)` and nothing else. */
  datatype FieldValue = BoolValue(b: bool) | IntValue(i: int) | TextValue(t: string) | NoneValue

  /** What `set_password` stores: a hash of the raw password, or an unusable password for None. */
  datatype PasswordHash = Unusable | HashOf(raw: string)

  function SetPassword(raw: Option<string>): PasswordHash
  {
    if raw.Some? then HashOf(raw.value) else Unusable
  }

  /** A user row: its email, its password, and the other columns set by keyword. */
  datatype User = User(email: string, password: PasswordHash, fields: map<string, FieldValue>)

  datatype CreateError = ValueError(message: string)

  /** `dict.setdefault`: adds `key` with `value` unless the caller already gave one. */
  function SetDefault(m: map<string, FieldValue>, key: string, value: FieldValue): (r: map<string, FieldValue>)
    ensures r.Keys == m.Keys + {key}
    ensures key in m ==> r == m
    ensures key !in m ==> r[key] == value && forall k :: k in m ==> r[k] == m[k]
  {
    if key in m then m else m[key := value]
  }

  /** Python's `v is True`. */
  predicate IsTrue(v: FieldValue)
  {
    v == BoolValue(true)
  }

  /** The column `full_name`, blank by default. */
  function FullName(u: User): string
  {
    if "full_name" in u.fields && u.fields["full_name"].TextValue? then u.fields["full_name"].t else ""
  }

  /** `get_full_name`: the full name when it is not blank, the email otherwise. */
  function GetFullName(u: User): (r: string)
    ensures FullName(u) != "" ==> r == FullName(u)
    ensures FullName(u) == "" ==> r == u.email
    ensures r == "" <==> FullName(u) == "" && u.email == ""
  {
    if FullName(u) != "" then FullName(u) else u.email
  }

  /** `get_short_name`: users are known by their email address. */
  function GetShortName(u: User): (r: string)
    ensures r == u.email
  {
    u.email
  }

  /** `__str__`. */
  function ToString(u: User): (r: string)
    ensures r == u.email
  {
    u.email
  }

  /** A user without a full name is shown the same way everywhere. */
  lemma NamesAgreeWithoutFullName(u: User)
    requires FullName(u) == ""
    ensures GetFullName(u) == GetShortName(u) == ToString(u)
  {
  }

  /** The keyword arguments `create_user` passes on: staff and superuser off unless given. */
  function UserDefaults(extra: map<string, FieldValue>): (r: map<string, FieldValue>)
    ensures r.Keys == extra.Keys + {"is_staff", "is_superuser"}
    ensures forall k :: k in extra ==> r[k] == extra[k]
    ensures "is_staff" !in extra ==> r["is_staff"] == BoolValue(false)
    ensures "is_superuser" !in extra ==> r["is_superuser"] == BoolValue(false)
  {
    SetDefault(SetDefault(extra, "is_staff", BoolValue(false)), "is_superuser", BoolValue(false))
  }

  const StaffRequired := "Superuser must have is_staff=True."

  const SuperuserRequired := "Superuser must have is_superuser=True."

  /**
   * The keyword arguments `create_superuser` passes on: staff and superuser on
   * unless given; a flag given as anything but True is a ValueError, the
   * staff flag being checked first.
   */
  function SuperuserDefaults(extra: map<string, FieldValue>): (r: Result<map<string, FieldValue>, CreateError>)
    ensures r.Failure? <==> ("is_staff" in extra && !IsTrue(extra["is_staff"])) || ("is_superuser" in extra && !IsTrue(extra["is_superuser"]))
    ensures r.Failure? && "is_staff" in extra && !IsTrue(extra["is_staff"]) ==> r.error == ValueError(StaffRequired)
    ensures r.Failure? && !("is_staff" in extra && !IsTrue(extra["is_staff"])) ==> r.error == ValueError(SuperuserRequired)
    ensures r.Success? ==> r.value.Keys == extra.Keys + {"is_staff", "is_superuser"} && forall k :: k in extra ==> r.value[k] == extra[k]
  {
    var fields := SetDefault(SetDefault(extra, "is_staff", BoolValue(true)), "is_superuser", BoolValue(true));
    if !IsTrue(fields["is_staff"]) then Failure(ValueError(StaffRequired))
    else if !IsTrue(fields["is_superuser"]) then Failure(ValueError(SuperuserRequired))
    else Success(fields)
  }

  /** Every superuser the manager lets through is both staff and superuser. */
  lemma SuperuserFlagsSet(extra: map<string, FieldValue>)
    requires SuperuserDefaults(extra).Success?
    ensures IsTrue(SuperuserDefaults(extra).value["is_staff"]) && IsTrue(SuperuserDefaults(extra).value["is_superuser"])
  {
  }

  /** Python's truth test on the `email` argument: None and "" are false. */
  predicate Truthy(s: Option<string>)
  {
    s.Some? && s.value != ""
  }

  const EmailRequired := "Users must have an email address"

  /** `EmailUsernameUserManager` over the table of users it saves into. */
  class UserManager {
    var users: seq<User>
    /** `normalize_email`, which lower-cases the domain part; its text processing is not modelled. */
    const normalizeEmail: string -> string

    constructor (users: seq<User>, normalizeEmail: string -> string)
      ensures this.users == users && this.normalizeEmail == normalizeEmail
    {
      this.users := users;
      this.normalizeEmail := normalizeEmail;
    }

    /** `user.save()`: the row is added to the table. */
    method Save(u: User)
      modifies this
      ensures users == old(users) + [u]
    {
      users := users + [u];
    }

    /**
     * `_create_user`: a missing or empty email is a ValueError and nothing is
     * saved; otherwise one user with the normalised email, the given password
     * and the keyword arguments is saved and returned.
     */
    method CreateUserWithFields(email: Option<string>, password: Option<string>, extra: map<string, FieldValue>)
      returns (r: Result<User, CreateError>)
      modifies this
      ensures !Truthy(email) ==> r == Failure(ValueError(EmailRequired)) && users == old(users)
      ensures Truthy(email) ==> r.Success? && users == old(users) + [r.value]
      ensures Truthy(email) ==> r.value == User(normalizeEmail(email.value), SetPassword(password), extra)
    {
      if !Truthy(email) {
        return Failure(ValueError(EmailRequired));
      }
      var normalized := normalizeEmail(email.value);
      var user := User(normalized, Unusable, extra);
      user := user.(password := SetPassword(password));
      Save(user);
      r := Success(user);
    }

    /** `create_user`: an ordinary user, neither staff nor superuser unless the caller says otherwise. */
    method CreateUser(email: Option<string>, password: Option<string>, extra: map<string, FieldValue>)
      returns (r: Result<User, CreateError>)
      modifies this
      ensures !Truthy(email) ==> r == Failure(ValueError(EmailRequired)) && users == old(users)
      ensures Truthy(email) ==> r.Success? && users == old(users) + [r.value]
      ensures Truthy(email) ==> r.value == User(normalizeEmail(email.value), SetPassword(password), UserDefaults(extra))
    {
      var fields := extra;
      fields := SetDefault(fields, "is_staff", BoolValue(false));
      fields := SetDefault(fields, "is_superuser", BoolValue(false));
      r := CreateUserWithFields(email, password, fields);
    }

    /**
     * `create_superuser`: the flag checks come before the email check, so a
     * bad flag is reported even when the email is missing; nothing is saved
     * on any error.
     */
    method CreateSuperuser(email: Option<string>, password: Option<string>, extra: map<string, FieldValue>)
      returns (r: Result<User, CreateError>)
      modifies this
      ensures SuperuserDefaults(extra).Failure? ==> r == Failure(SuperuserDefaults(extra).error) && users == old(users)
      ensures SuperuserDefaults(extra).Success? && !Truthy(email) ==> r == Failure(ValueError(EmailRequired)) && users == old(users)
      ensures SuperuserDefaults(extra).Success? && Truthy(email) ==>
        r == Success(User(normalizeEmail(email.value), SetPassword(password), SuperuserDefaults(extra).value))
        && users == old(users) + [r.value]
    {
      var fields := extra;
      fields := SetDefault(fields, "is_staff", BoolValue(true));
      fields := SetDefault(fields, "is_superuser", BoolValue(true));
      if !IsTrue(fields["is_staff"]) {
        return Failure(ValueError(StaffRequired));
      }
      if !IsTrue(fields["is_superuser"]) {
        return Failure(ValueError(SuperuserRequired));
      }
      r := CreateUserWithFields(email, password, fields);
    }
  }
}
