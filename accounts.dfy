/** Account creation (weather_app/weather_api/models.py): the user manager's
    `create_user` and `create_superuser`, over a user table whose email
    column is unique.

    Email normalisation and password hashing belong to the framework; the
    store is given them as functions and never looks inside. An email or a
    display name that is `None` behaves like the empty string (both are
    falsy); the password keeps its `None`, which `create_superuser` passes
    by default. */
module Accounts {
  import opened Common

  /** Field defaults of the user model. */
  const DefaultUnit: int := 0

  datatype User = User(
    email: string, displayName: string, passwordHash: string,
    temperatureUnit: int, windSpeedUnit: int, isStaff: bool, isSuperuser: bool)

  /** The `is_staff` and `is_superuser` keyword arguments, when given. */
  datatype ExtraFields = ExtraFields(isStaff: Option<bool>, isSuperuser: Option<bool>)

  datatype AccountError =
    | MissingEmail        // "Users must have an email address"
    | MissingDisplayName  // "Users must have a display name"
    | MissingPassword     // "Users must have a password"
    | NotStaff            // "Superuser must have is_staff=True."
    | NotSuperuser        // "Superuser must have is_superuser=True."
    | DuplicateEmail      // the unique constraint on the email column

  datatype Created = Created(user: User) | Rejected(error: AccountError)

  ghost predicate UniqueEmails(users: seq<User>) {
    forall i, j :: 0 <= i < j < |users| ==> users[i].email != users[j].email
  }

  predicate EmailTaken(users: seq<User>, email: string) {
    exists i :: 0 <= i < |users| && users[i].email == email
  }

  /** The checks `create_user` runs before building the user, in order; the
      first that fails decides the error. */
  function FirstMissing(email: string, displayName: string, password: Option<string>): Option<AccountError> {
    if email == "" then Some(MissingEmail)
    else if displayName == "" then Some(MissingDisplayName)
    else if !Truthy(password) then Some(MissingPassword)
    else None
  }

  /** `create_user`: validate, build the user with defaults, hash the
      password, save. Saving a second user with the same normalised email
      violates the unique constraint and stores nothing. */
  function CreateUserSpec(users: seq<User>, normalize: string -> string, hash: string -> string,
                          email: string, displayName: string, password: Option<string>,
                          temperatureUnit: Option<int>, windSpeedUnit: Option<int>,
                          extra: ExtraFields): (seq<User>, Created)
  {
    match FirstMissing(email, displayName, password)
    case Some(err) => (users, Rejected(err))
    case None =>
      var user := User(normalize(email), displayName, hash(password.value),
                       temperatureUnit.GetOr(DefaultUnit), windSpeedUnit.GetOr(DefaultUnit),
                       extra.isStaff.GetOr(false), extra.isSuperuser.GetOr(false));
      if EmailTaken(users, user.email) then (users, Rejected(DuplicateEmail))
      else (users + [user], Created(user))
  }

  /** `create_superuser`: default both flags to true, insist that they are
      true, then delegate to `create_user`. */
  function CreateSuperuserSpec(users: seq<User>, normalize: string -> string, hash: string -> string,
                               email: string, displayName: string, password: Option<string>,
                               temperatureUnit: Option<int>, windSpeedUnit: Option<int>,
                               extra: ExtraFields): (seq<User>, Created)
  {
    var staff := extra.isStaff.GetOr(true);
    var superuser := extra.isSuperuser.GetOr(true);
    if !staff then (users, Rejected(NotStaff))
    else if !superuser then (users, Rejected(NotSuperuser))
    else CreateUserSpec(users, normalize, hash, email, displayName, password,
                        temperatureUnit, windSpeedUnit, ExtraFields(Some(staff), Some(superuser)))
  }

  /** The user table and its manager. */
  class UserStore {
    const normalize: string -> string
    const hash: string -> string
    var users: seq<User>

    ghost predicate Valid()
      reads this
    {
      UniqueEmails(users)
    }

    constructor (normalize: string -> string, hash: string -> string)
      ensures Valid() && users == []
      ensures this.normalize == normalize && this.hash == hash
    {
      this.normalize, this.hash := normalize, hash;
      users := [];
    }

    method CreateUser(email: string, displayName: string, password: Option<string>,
                      temperatureUnit: Option<int>, windSpeedUnit: Option<int>,
                      extra: ExtraFields) returns (r: Created)
      requires Valid()
      modifies this
      ensures Valid()
      ensures (users, r) == CreateUserSpec(old(users), normalize, hash, email, displayName, password,
                                           temperatureUnit, windSpeedUnit, extra)
    {
      if email == "" {
        return Rejected(MissingEmail);
      }
      if displayName == "" {
        return Rejected(MissingDisplayName);
      }
      if !Truthy(password) {
        return Rejected(MissingPassword);
      }
      var user := User(normalize(email), displayName, hash(password.value),
                       temperatureUnit.GetOr(DefaultUnit), windSpeedUnit.GetOr(DefaultUnit),
                       extra.isStaff.GetOr(false), extra.isSuperuser.GetOr(false));
      if EmailTaken(users, user.email) {
        return Rejected(DuplicateEmail);
      }
      AppendKeepsUnique(users, user);
      users := users + [user];
      r := Created(user);
    }

    method CreateSuperuser(email: string, displayName: string, password: Option<string>,
                           temperatureUnit: Option<int>, windSpeedUnit: Option<int>,
                           extra: ExtraFields) returns (r: Created)
      requires Valid()
      modifies this
      ensures Valid()
      ensures (users, r) == CreateSuperuserSpec(old(users), normalize, hash, email, displayName, password,
                                                temperatureUnit, windSpeedUnit, extra)
    {
      var extra' := extra;
      if extra'.isStaff.None? {
        extra' := extra'.(isStaff := Some(true));
      }
      if extra'.isSuperuser.None? {
        extra' := extra'.(isSuperuser := Some(true));
      }
      if !extra'.isStaff.value {
        return Rejected(NotStaff);
      }
      if !extra'.isSuperuser.value {
        return Rejected(NotSuperuser);
      }
      r := CreateUser(email, displayName, password, temperatureUnit, windSpeedUnit, extra');
    }
  }

  lemma AppendKeepsUnique(users: seq<User>, user: User)
    requires UniqueEmails(users) && !EmailTaken(users, user.email)
    ensures UniqueEmails(users + [user])
  {
  }

  // ---------------------------------------------------------------------
  // Properties of account creation

  /** The checks run in order: an empty email wins over an empty display
      name, which wins over a missing password; no user is added. */
  lemma ValidationOrder(users: seq<User>, normalize: string -> string, hash: string -> string,
                        email: string, displayName: string, password: Option<string>,
                        temperatureUnit: Option<int>, windSpeedUnit: Option<int>, extra: ExtraFields)
    ensures var (users', r) := CreateUserSpec(users, normalize, hash, email, displayName, password,
                                              temperatureUnit, windSpeedUnit, extra);
      && (r == Rejected(MissingEmail) <==> email == "")
      && (r == Rejected(MissingDisplayName) <==> email != "" && displayName == "")
      && (r == Rejected(MissingPassword) <==> email != "" && displayName != "" && !Truthy(password))
      && (r.Rejected? ==> users' == users)
  {
  }

  /** A successful `create_user` adds exactly one user: the normalised email,
      the given name, the hashed password, the given units or 0 for each unit
      not supplied; it fails only on a missing field or a taken email. */
  lemma CreateUserAddsOne(users: seq<User>, normalize: string -> string, hash: string -> string,
                          email: string, displayName: string, password: Option<string>,
                          temperatureUnit: Option<int>, windSpeedUnit: Option<int>, extra: ExtraFields)
    ensures var (users', r) := CreateUserSpec(users, normalize, hash, email, displayName, password,
                                              temperatureUnit, windSpeedUnit, extra);
      && (r.Created? <==> FirstMissing(email, displayName, password).None?
                          && !EmailTaken(users, normalize(email)))
      && (r.Created? ==>
            && users' == users + [r.user]
            && r.user.email == normalize(email) && r.user.displayName == displayName
            && r.user.passwordHash == hash(password.value)
            && (temperatureUnit.None? ==> r.user.temperatureUnit == 0)
            && (windSpeedUnit.None? ==> r.user.windSpeedUnit == 0)
            && (temperatureUnit.Some? ==> r.user.temperatureUnit == temperatureUnit.value)
            && (windSpeedUnit.Some? ==> r.user.windSpeedUnit == windSpeedUnit.value))
  {
  }

  /** No two users ever share an email. */
  lemma CreateKeepsEmailsUnique(users: seq<User>, normalize: string -> string, hash: string -> string,
                                email: string, displayName: string, password: Option<string>,
                                temperatureUnit: Option<int>, windSpeedUnit: Option<int>,
                                extra: ExtraFields, super: bool)
    requires UniqueEmails(users)
    ensures UniqueEmails(
      (if super then CreateSuperuserSpec(users, normalize, hash, email, displayName, password,
                                         temperatureUnit, windSpeedUnit, extra)
       else CreateUserSpec(users, normalize, hash, email, displayName, password,
                           temperatureUnit, windSpeedUnit, extra)).0)
  {
    var extra' := if super then ExtraFields(Some(true), Some(true)) else extra;
    if FirstMissing(email, displayName, password).None? && !EmailTaken(users, normalize(email)) {
      var user := User(normalize(email), displayName, hash(password.value),
                       temperatureUnit.GetOr(DefaultUnit), windSpeedUnit.GetOr(DefaultUnit),
                       extra'.isStaff.GetOr(false), extra'.isSuperuser.GetOr(false));
      AppendKeepsUnique(users, user);
    }
  }

  /** `create_superuser` makes a staff superuser unless the caller says
      otherwise, and then it fails with no user created. */
  lemma SuperuserFlags(users: seq<User>, normalize: string -> string, hash: string -> string,
                       email: string, displayName: string, password: Option<string>,
                       temperatureUnit: Option<int>, windSpeedUnit: Option<int>, extra: ExtraFields)
    ensures var (users', r) := CreateSuperuserSpec(users, normalize, hash, email, displayName, password,
                                                   temperatureUnit, windSpeedUnit, extra);
      && (r.Created? ==> r.user.isStaff && r.user.isSuperuser && users' == users + [r.user])
      && (r == Rejected(NotStaff) <==> extra.isStaff == Some(false))
      && (r == Rejected(NotSuperuser) <==> extra.isStaff != Some(false) && extra.isSuperuser == Some(false))
      && (extra.isStaff == Some(false) || extra.isSuperuser == Some(false) ==> r.Rejected? && users' == users)
  {
    if extra.isStaff.GetOr(true) && extra.isSuperuser.GetOr(true) {
      CreateUserNeverRejectsFlags(users, normalize, hash, email, displayName, password,
                                  temperatureUnit, windSpeedUnit, ExtraFields(Some(true), Some(true)));
    }
  }

  /** `create_user` itself never checks the flags. */
  lemma CreateUserNeverRejectsFlags(users: seq<User>, normalize: string -> string, hash: string -> string,
                                    email: string, displayName: string, password: Option<string>,
                                    temperatureUnit: Option<int>, windSpeedUnit: Option<int>, extra: ExtraFields)
    ensures var r := CreateUserSpec(users, normalize, hash, email, displayName, password,
                                    temperatureUnit, windSpeedUnit, extra).1;
      r != Rejected(NotStaff) && r != Rejected(NotSuperuser)
  {
    match FirstMissing(email, displayName, password)
    case Some(err) =>
    case None =>
  }

  /** `create_superuser` without a password reaches `create_user` and fails
      with its missing-password error. */
  lemma SuperuserNeedsPassword(users: seq<User>, normalize: string -> string, hash: string -> string,
                               email: string, displayName: string,
                               temperatureUnit: Option<int>, windSpeedUnit: Option<int>, extra: ExtraFields)
    requires email != "" && displayName != ""
    requires extra.isStaff != Some(false) && extra.isSuperuser != Some(false)
    ensures CreateSuperuserSpec(users, normalize, hash, email, displayName, None,
                                temperatureUnit, windSpeedUnit, extra)
            == (users, Rejected(MissingPassword))
  {
    assert FirstMissing(email, displayName, None) == Some(MissingPassword);
    assert extra.isStaff.GetOr(true) && extra.isSuperuser.GetOr(true);
  }
}
