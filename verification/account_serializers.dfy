/**
  The account serializers (account/serializers.py): the login validation
  cascade with its ordered error codes, registration's `create`, and the
  read-only field sets that decide what an update may change. The
  authentication backend and token issuance are library calls and enter as
  uninterpreted functions.
 */
module AccountSerializers {
  import opened Wrappers
  import opened AccountErrors
  import opened AccountModels

  // ---------------------------------------------------------------------
  // Login
  // ---------------------------------------------------------------------

  /** What `authenticate(username=…, password=…)` yields: the user, nothing,
      or a `DoesNotExist` raised from the lookup inside it. */
  datatype AuthAnswer = Authenticated(user: User) | Refused | LookupVanished

  datatype Tokens = Tokens(access: string, refresh: string)

  /** The user part of a successful login: exactly these six fields. */
  datatype UserInfo = UserInfo(id: UserKey, email: string, fullName: Option<string>, phone: Option<string>,
                               isActive: bool, isStaff: bool)

  /** The body of a successful login. */
  datatype LoginBody = LoginBody(status: string, message: string, user: UserInfo, access: string, refresh: string)

  /** Some stored user has `identifier` as email or as phone. */
  predicate Known(db: Users, identifier: string) {
    exists i :: 0 <= i < |db| && (db[i].email == identifier || db[i].phone == Some(identifier))
  }

  /** `MyTokenObtainPairSerializer.validate`: the identifier (email or phone)
      and password are checked in a fixed order, and the first check that
      fails names the error. An empty field counts as missing. */
  function Login(db: Users, identifier: string, password: string,
                 authenticate: (string, string) -> AuthAnswer, issue: User -> Tokens): (r: Result<LoginBody, ErrorCode>)
    ensures identifier == [] ==> r == Failure(EmailRequired)
    ensures identifier != [] && password == [] ==> r == Failure(PasswordRequired)
    ensures identifier != [] && password != [] && !Known(db, identifier) ==> r == Failure(UserNotFound)
    ensures identifier != [] && password != [] && Known(db, identifier) ==>
              match authenticate(identifier, password)
              case Refused => r == Failure(InvalidCredentials)
              case LookupVanished => r == Failure(UserNotFound)
              case Authenticated(u) => (r == Failure(AccountInactive) <==> !u.isActive)
    ensures r.Success? <==>
              && identifier != [] && password != [] && Known(db, identifier)
              && authenticate(identifier, password).Authenticated?
              && authenticate(identifier, password).user.isActive
    ensures r.Success? ==>
              var u := authenticate(identifier, password).user;
              && r.value.status == "success"
              && r.value.user == UserInfo(u.id, u.email, u.fullName, u.phone, u.isActive, u.isStaff)
              && r.value.access == issue(u).access && r.value.refresh == issue(u).refresh
  {
    if identifier == [] then Failure(EmailRequired)
    else if password == [] then Failure(PasswordRequired)
    else if !Known(db, identifier) then Failure(UserNotFound)
    else
      match authenticate(identifier, password)
      case LookupVanished => Failure(UserNotFound)
      case Refused => Failure(InvalidCredentials)
      case Authenticated(u) =>
        if !u.isActive then Failure(AccountInactive)
        else
          var tokens := issue(u);
          Success(LoginBody("success", "Login successful",
                            UserInfo(u.id, u.email, u.fullName, u.phone, u.isActive, u.isStaff),
                            tokens.access, tokens.refresh))
  }

  /** An unknown identifier is reported before authentication is attempted:
      the answer does not depend on the authenticator at all. */
  lemma UnknownUserNeverAuthenticates(db: Users, identifier: string, password: string,
                                      auth1: (string, string) -> AuthAnswer, auth2: (string, string) -> AuthAnswer,
                                      issue: User -> Tokens)
    requires !Known(db, identifier)
    ensures Login(db, identifier, password, auth1, issue) == Login(db, identifier, password, auth2, issue)
    ensures Login(db, identifier, password, auth1, issue).Failure?
  {
  }

  // ---------------------------------------------------------------------
  // Registration's create
  // ---------------------------------------------------------------------

  /** A validated optional field: absent from the data, given as null, or given. */
  datatype Entry = Missing | Null | Given(text: string) {
    function Stored(): Option<string> {
      if Given? then Some(text) else None
    }
  }

  /** The validated registration data. Email and password are required
      fields; full name and phone are optional and may be absent. */
  datatype Registration = Registration(email: string, fullName: Entry, phone: Entry, password: string)

  /** `UserSerializer.create`: reads the full name and phone by key, so an
      absent one raises `KeyError`; stores a user that is a user and active
      whatever the input, then sets the hashed password. */
  function CreateRegistered(db: Users, id: UserKey, v: Registration, hash: string -> string): (r: Result<Created, Fault>)
    requires KeyFree(db, id)
    ensures v.fullName.Missing? ==> r == Failure(KeyMissing("full_name"))
    ensures !v.fullName.Missing? && v.phone.Missing? ==> r == Failure(KeyMissing("phone"))
    ensures r.Success? <==> !v.fullName.Missing? && !v.phone.Missing?
                            && !EmailTaken(db, v.email) && !PhoneTaken(db, v.phone.Stored())
    ensures r.Success? ==> r.value.users == db + [r.value.user]
    ensures r.Success? ==> var u := r.value.user;
              && u.isUser && u.isActive && !u.isAdmin && !u.isStaff && !u.isSuperuser
              && u.id == id && u.email == v.email && u.password == Hashed(hash(v.password))
              && u.fullName == v.fullName.Stored() && u.phone == v.phone.Stored()
  {
    if v.fullName.Missing? then Failure(KeyMissing("full_name"))
    else if v.phone.Missing? then Failure(KeyMissing("phone"))
    else
      var extra := ExtraFields(v.fullName.Stored(), v.phone.Stored(), Some(true), None, Some(true), None, None);
      var u := NewUser(id, v.email, Hashed(hash(v.password)), extra);
      match Insert(db, u)
      case Failure(f) => Failure(f)
      case Success(db') => Success(Created(db', u))
  }

  // ---------------------------------------------------------------------
  // Read-only fields and updates
  // ---------------------------------------------------------------------

  /** The serializer fields of the user table. */
  datatype Field = Id | Email | FullName | Phone | IsUser | IsActive | IsAdmin | PasswordField

  const UserSerializerFields: set<Field> := {Id, Email, FullName, Phone, IsUser, IsActive, PasswordField}
  const UpdateSerializerFields: set<Field> := {Id, Email, FullName, Phone, IsUser, IsActive, IsAdmin}

  /** `UserSerializer`'s read-only fields: the key, the two flags, and the
      email as well whenever the serializer is bound to an existing user. */
  function UserSerializerReadOnly(hasInstance: bool): (ro: set<Field>)
    ensures hasInstance <==> Email in ro
    ensures IsUser in ro && IsActive in ro
    ensures FullName !in ro && Phone !in ro && PasswordField !in ro
  {
    {Id, IsUser, IsActive} + (if hasInstance then {Email} else {})
  }

  const UpdateSerializerReadOnly: set<Field> := {Id, Email, IsUser, IsActive, IsAdmin}

  /** The fields a client may send, each absent unless given. */
  datatype Patch = Patch(
    email: Option<string>,
    fullName: Option<Option<string>>,
    phone: Option<Option<string>>,
    isUser: Option<bool>,
    isActive: Option<bool>,
    isAdmin: Option<bool>)

  /** A field's value after a partial update: the given value when the
      field is writable and given, the current one otherwise. */
  function Written<T>(writable: set<Field>, f: Field, given: Option<T>, current: T): (v: T)
    ensures f !in writable || given.None? ==> v == current
    ensures f in writable && given.Some? ==> v == given.value
  {
    if f in writable then given.GetOr(current) else current
  }

  /** A partial update through a serializer whose writable fields are
      `writable`: a given field changes only when writable; everything else
      about the user is kept. */
  function ApplyPatch(u: User, p: Patch, writable: set<Field>): (u': User)
    ensures Email !in writable || p.email.None? ==> u'.email == u.email
    ensures FullName !in writable || p.fullName.None? ==> u'.fullName == u.fullName
    ensures Phone !in writable || p.phone.None? ==> u'.phone == u.phone
    ensures IsUser !in writable || p.isUser.None? ==> u'.isUser == u.isUser
    ensures IsActive !in writable || p.isActive.None? ==> u'.isActive == u.isActive
    ensures IsAdmin !in writable || p.isAdmin.None? ==> u'.isAdmin == u.isAdmin
    ensures FullName in writable && p.fullName.Some? ==> u'.fullName == p.fullName.value
    ensures Phone in writable && p.phone.Some? ==> u'.phone == p.phone.value
    ensures u'.id == u.id && u'.password == u.password && u'.isStaff == u.isStaff && u'.isSuperuser == u.isSuperuser
  {
    User(u.id,
         Written(writable, Email, p.email, u.email),
         Written(writable, FullName, p.fullName, u.fullName),
         Written(writable, Phone, p.phone, u.phone),
         u.password,
         Written(writable, IsUser, p.isUser, u.isUser),
         Written(writable, IsAdmin, p.isAdmin, u.isAdmin),
         Written(writable, IsActive, p.isActive, u.isActive),
         u.isSuperuser,
         u.isStaff)
  }

  /** Through `UpdateUserSerializer` only the full name and phone can change:
      email and the user, active and admin flags survive any patch. */
  lemma UpdateKeepsProtectedFields(u: User, p: Patch)
    ensures var u' := ApplyPatch(u, p, UpdateSerializerFields - UpdateSerializerReadOnly);
            && u'.email == u.email && u'.isUser == u.isUser && u'.isActive == u.isActive && u'.isAdmin == u.isAdmin
            && u'.fullName == p.fullName.GetOr(u.fullName) && u'.phone == p.phone.GetOr(u.phone)
  {
  }

  /** Through `UserSerializer` bound to an existing user, the email survives any patch. */
  lemma BoundUserSerializerKeepsEmail(u: User, p: Patch)
    ensures ApplyPatch(u, p, UserSerializerFields - UserSerializerReadOnly(true)).email == u.email
  {
  }
}
