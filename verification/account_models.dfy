/**
  The user table and its manager (account/models.py): field defaults, the
  unique email and phone columns, and the guards of `create_user` and
  `create_superuser`. Email normalisation and password hashing are library
  calls and enter as uninterpreted functions.
 */
module AccountModels {
  import opened Wrappers
  import opened AccountErrors

  type UserKey = int

  /** A stored password: a hash, or the unusable marker set for a missing password. */
  datatype Password = Unusable | Hashed(digest: string)

  datatype User = User(
    id: UserKey,
    email: string,
    fullName: Option<string>,
    phone: Option<string>,
    password: Password,
    isUser: bool,
    isAdmin: bool,
    isActive: bool,
    isSuperuser: bool,
    isStaff: bool)

  /** The user table, in insertion order. */
  type Users = seq<User>

  /** Primary keys and emails are unique; a phone is unique when present. */
  ghost predicate UniqueAccounts(db: Users) {
    forall i, j :: 0 <= i < |db| && 0 <= j < |db| && i != j ==>
      && db[i].id != db[j].id
      && db[i].email != db[j].email
      && (db[i].phone.Some? ==> db[i].phone != db[j].phone)
  }

  predicate KeyFree(db: Users, id: UserKey) {
    forall i :: 0 <= i < |db| ==> db[i].id != id
  }

  predicate EmailTaken(db: Users, email: string) {
    exists i :: 0 <= i < |db| && db[i].email == email
  }

  predicate PhoneTaken(db: Users, phone: Option<string>) {
    phone.Some? && exists i :: 0 <= i < |db| && db[i].phone == phone
  }

  /** The keyword arguments a caller may pass along (`**extra_fields`); each
      is absent unless given. */
  datatype ExtraFields = ExtraFields(
    fullName: Option<string>,
    phone: Option<string>,
    isUser: Option<bool>,
    isAdmin: Option<bool>,
    isActive: Option<bool>,
    isSuperuser: Option<bool>,
    isStaff: Option<bool>)

  /** A user row built from the given fields, every flag not given taking the
      model's default: a user, not an admin, active, not a superuser, not staff. */
  function NewUser(id: UserKey, email: string, password: Password, extra: ExtraFields): (u: User)
    ensures u.isUser == extra.isUser.GetOr(true) && u.isAdmin == extra.isAdmin.GetOr(false)
    ensures u.isActive == extra.isActive.GetOr(true) && u.isSuperuser == extra.isSuperuser.GetOr(false)
    ensures u.isStaff == extra.isStaff.GetOr(false)
    ensures u.id == id && u.email == email && u.password == password
    ensures u.fullName == extra.fullName && u.phone == extra.phone
  {
    User(id, email, extra.fullName, extra.phone, password,
         extra.isUser.GetOr(true), extra.isAdmin.GetOr(false), extra.isActive.GetOr(true),
         extra.isSuperuser.GetOr(false), extra.isStaff.GetOr(false))
  }

  /** Storing a row under a fresh key: the table's unique constraints reject a
      taken email, then a taken phone. */
  function Insert(db: Users, u: User): (r: Result<Users, Fault>)
    requires KeyFree(db, u.id)
    ensures r.Success? <==> !EmailTaken(db, u.email) && !PhoneTaken(db, u.phone)
    ensures r.Success? ==> r.value == db + [u]
    ensures r.Failure? ==> r.error.UniqueViolation?
  {
    if EmailTaken(db, u.email) then Failure(UniqueViolation("email"))
    else if PhoneTaken(db, u.phone) then Failure(UniqueViolation("phone"))
    else Success(db + [u])
  }

  lemma InsertKeepsUniqueAccounts(db: Users, u: User)
    requires KeyFree(db, u.id) && UniqueAccounts(db)
    ensures Insert(db, u).Success? ==> UniqueAccounts(Insert(db, u).value)
  {
  }

  /** The user and the table after a successful creation. */
  datatype Created = Created(users: Users, user: User)

  /** `UserManager.create_user`: an empty email is refused before anything is
      stored; otherwise the normalised email, the hashed (or unusable)
      password and the extra fields are stored under the fresh key `id`. */
  function CreateUser(db: Users, id: UserKey, email: string, password: Option<string>, extra: ExtraFields,
                      normalize: string -> string, hash: string -> string): (r: Result<Created, Fault>)
    requires KeyFree(db, id)
    ensures email == [] ==> r == Failure(EmailMissing)
    ensures r.Success? ==> r.value.users == db + [r.value.user]
    ensures r.Success? ==> r.value.user.email == normalize(email) && r.value.user.id == id
    ensures r.Success? ==> r.value.user.password == if password.None? then Unusable else Hashed(hash(password.value))
    ensures r.Success? <==> email != [] && !EmailTaken(db, normalize(email)) && !PhoneTaken(db, extra.phone)
    ensures r.Success? ==> r.value.user == NewUser(id, normalize(email), r.value.user.password, extra)
    ensures email != [] && r.Failure? ==> r.error.UniqueViolation?
  {
    if email == [] then
      Failure(EmailMissing)
    else
      var stored := match password
        case None => Unusable
        case Some(p) => Hashed(hash(p));
      var u := NewUser(id, normalize(email), stored, extra);
      match Insert(db, u)
      case Failure(f) => Failure(f)
      case Success(db') => Success(Created(db', u))
  }

  /** `create_superuser`'s defaults: staff, superuser and active unless given. */
  function SuperuserDefaults(extra: ExtraFields): (e: ExtraFields)
    ensures e.isStaff == Some(extra.isStaff.GetOr(true))
    ensures e.isSuperuser == Some(extra.isSuperuser.GetOr(true))
    ensures e.isActive == Some(extra.isActive.GetOr(true))
    ensures e.fullName == extra.fullName && e.phone == extra.phone
    ensures e.isUser == extra.isUser && e.isAdmin == extra.isAdmin
  {
    extra.(isStaff := Some(extra.isStaff.GetOr(true)),
           isSuperuser := Some(extra.isSuperuser.GetOr(true)),
           isActive := Some(extra.isActive.GetOr(true)))
  }

  /** `UserManager.create_superuser`: the staff flag is checked, then the
      superuser flag, both before the email; then it is `create_user` with
      the flags defaulted on. */
  function CreateSuperuser(db: Users, id: UserKey, email: string, password: Option<string>, extra: ExtraFields,
                           normalize: string -> string, hash: string -> string): (r: Result<Created, Fault>)
    requires KeyFree(db, id)
    ensures extra.isStaff == Some(false) ==> r == Failure(StaffFlagRequired)
    ensures extra.isStaff != Some(false) && extra.isSuperuser == Some(false) ==> r == Failure(SuperuserFlagRequired)
    ensures extra.isStaff != Some(false) && extra.isSuperuser != Some(false) ==>
              r == CreateUser(db, id, email, password, SuperuserDefaults(extra), normalize, hash)
    ensures r.Success? ==> r.value.user.isStaff && r.value.user.isSuperuser
    ensures r.Success? ==> r.value.user.isActive == extra.isActive.GetOr(true)
  {
    var e := SuperuserDefaults(extra);
    assert extra.isStaff != Some(false) ==> e.isStaff == Some(true) by {
      if extra.isStaff.Some? && extra.isStaff != Some(false) { assert extra.isStaff.value; }
    }
    assert extra.isSuperuser != Some(false) ==> e.isSuperuser == Some(true) by {
      if extra.isSuperuser.Some? && extra.isSuperuser != Some(false) { assert extra.isSuperuser.value; }
    }
    if e.isStaff != Some(true) then Failure(StaffFlagRequired)
    else if e.isSuperuser != Some(true) then Failure(SuperuserFlagRequired)
    else CreateUser(db, id, email, password, e, normalize, hash)
  }

  /** Creating a user or superuser never breaks the uniqueness of keys, emails and phones. */
  lemma CreateUserKeepsUniqueAccounts(db: Users, id: UserKey, email: string, password: Option<string>, extra: ExtraFields,
                                      normalize: string -> string, hash: string -> string)
    requires KeyFree(db, id) && UniqueAccounts(db)
    ensures CreateUser(db, id, email, password, extra, normalize, hash).Success? ==>
              UniqueAccounts(CreateUser(db, id, email, password, extra, normalize, hash).value.users)
    ensures CreateSuperuser(db, id, email, password, extra, normalize, hash).Success? ==>
              UniqueAccounts(CreateSuperuser(db, id, email, password, extra, normalize, hash).value.users)
  {
  }
}
