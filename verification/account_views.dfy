/**
  The account handlers (account/views.py): registration's classification of
  validation errors, duplicate emails and unexpected exceptions, and the
  profile endpoint. Field validation is a library concern and enters as its
  verdict: the validated data, or the ordered mapping of field errors.
 */
module AccountViews {
  import opened Wrappers
  import opened AccountErrors
  import opened AccountModels
  import opened AccountSerializers

  /** The verdict of validating registration data: the validated data, or
      the errors as an ordered mapping from field name to messages. */
  datatype Validation = Valid(data: Registration) | Invalid(errors: seq<FieldErrors>)

  datatype FieldErrors = FieldErrors(field: string, messages: seq<string>)

  /** The public view of a user that `UserSerializer` renders (the password is write-only). */
  datatype PublicUser = PublicUser(id: UserKey, email: string, fullName: Option<string>, phone: Option<string>,
                                   isUser: bool, isActive: bool)

  function Public(u: User): PublicUser {
    PublicUser(u.id, u.email, u.fullName, u.phone, u.isUser, u.isActive)
  }

  datatype RegisterBody =
    | Registered(user: PublicUser)
    | Refusal(code: ErrorCode, field: Option<string>, message: string)

  datatype Response = Response(status: int, body: RegisterBody)

  /** The table after a request, and the response sent. */
  datatype RegisterOutcome = RegisterOutcome(users: Users, response: Response)

  /** The error code for the first invalid field, from the five-entry table. */
  const FieldCodes: map<string, ErrorCode> := map[
    "email" := InvalidEmail,
    "password" := InvalidPassword,
    "phone" := InvalidPhone,
    "username" := InvalidUsername,
    "non_field_errors" := ValidationError]

  /** `error_codes.get(field, 'VALIDATION_ERROR')`: one of five validation
      codes, the generic one exactly for fields other than email, password,
      phone and username (including `non_field_errors`, whose entry is the
      generic code). */
  function CodeFor(field: string): (code: ErrorCode)
    ensures code in {InvalidEmail, InvalidPassword, InvalidPhone, InvalidUsername, ValidationError}
    ensures code == ValidationError <==> field !in {"email", "password", "phone", "username"}
    ensures field == "email" ==> code == InvalidEmail
    ensures field == "password" ==> code == InvalidPassword
    ensures field == "phone" ==> code == InvalidPhone
    ensures field == "username" ==> code == InvalidUsername
  {
    if field in FieldCodes then FieldCodes[field] else ValidationError
  }

  const EmailExistsMessage: string := "A user with this email already exists."

  /** `register_user`. `rawEmail` is the email as sent (the duplicate check
      reads the raw request data, not the validated data), `id` the fresh key
      the database would assign. Any exception inside the handler becomes a
      500 echoing the exception's message. */
  function Register(db: Users, id: UserKey, rawEmail: string, validation: Validation, hash: string -> string)
    : (r: RegisterOutcome)
    requires KeyFree(db, id)
    ensures r.response.status in {201, 400, 500}
    ensures r.response.status != 201 ==> r.users == db
    ensures r.response.status == 201 ==>
              && |r.users| == |db| + 1 && r.users[..|db|] == db
              && r.users[|db|].isUser && r.users[|db|].isActive
              && r.response.body == Registered(Public(r.users[|db|]))
    ensures r.response.status == 201 ==>
              && validation.Valid? && CreateRegistered(db, id, validation.data, hash).Success?
              && r.users == CreateRegistered(db, id, validation.data, hash).value.users
    ensures r.response.status == 201 ==>
              && validation.Valid? && |r.users| == |db| + 1
              && (var v, u := validation.data, r.users[|db|];
                  && u.id == id && u.email == v.email && u.password == Hashed(hash(v.password))
                  && u.fullName == v.fullName.Stored() && u.phone == v.phone.Stored()
                  && !u.isAdmin && !u.isStaff && !u.isSuperuser)
    ensures r.response.status == 201 <==>
              && validation.Valid?
              && !(rawEmail != [] && EmailTaken(db, rawEmail))
              && CreateRegistered(db, id, validation.data, hash).Success?
    ensures validation.Valid? && rawEmail != [] && EmailTaken(db, rawEmail) ==>
              r.response == Response(400, Refusal(EmailExists, None, EmailExistsMessage))
    ensures validation.Invalid? && validation.errors != [] && validation.errors[0].messages != [] ==>
              var first := validation.errors[0];
              r.response == Response(400, Refusal(CodeFor(first.field), Some(first.field), first.messages[0]))
    ensures r.response.status == 500 <==>
              || (validation.Invalid? && (validation.errors == [] || validation.errors[0].messages == []))
              || (validation.Valid? && !(rawEmail != [] && EmailTaken(db, rawEmail))
                  && CreateRegistered(db, id, validation.data, hash).Failure?)
    ensures r.response.status == 500 ==> r.response.body.Refusal? && r.response.body.code == ServerError
    ensures validation.Invalid? && validation.errors == [] ==> r.response == ServerFault(NoErrorEntries)
    ensures validation.Invalid? && validation.errors != [] && validation.errors[0].messages == [] ==>
              r.response == ServerFault(NoErrorMessages)
    ensures validation.Valid? && !(rawEmail != [] && EmailTaken(db, rawEmail))
            && CreateRegistered(db, id, validation.data, hash).Failure? ==>
              r.response == ServerFault(CreateRegistered(db, id, validation.data, hash).error)
  {
    match validation
    case Valid(v) =>
      if rawEmail != [] && EmailTaken(db, rawEmail) then
        RegisterOutcome(db, Response(400, Refusal(EmailExists, None, EmailExistsMessage)))
      else
        (match CreateRegistered(db, id, v, hash)
         case Failure(f) => RegisterOutcome(db, ServerFault(f))
         case Success(created) => RegisterOutcome(created.users, Response(201, Registered(Public(created.user)))))
    case Invalid(errors) =>
      if errors == [] then
        RegisterOutcome(db, ServerFault(NoErrorEntries))
      else if errors[0].messages == [] then
        RegisterOutcome(db, ServerFault(NoErrorMessages))
      else
        var first := errors[0];
        RegisterOutcome(db, Response(400, Refusal(CodeFor(first.field), Some(first.field), first.messages[0])))
  }

  /** The response for an exception caught by the handler. */
  function ServerFault(f: Fault): (resp: Response)
    ensures resp.status == 500 && resp.body.Refusal? && resp.body.code == ServerError
    ensures resp.body.message == ExceptionText(f) && resp.body.field.None?
  {
    Response(500, Refusal(ServerError, None, ExceptionText(f)))
  }

  /** Registering never breaks the uniqueness of keys, emails and phones. */
  lemma RegisterKeepsUniqueAccounts(db: Users, id: UserKey, rawEmail: string, validation: Validation, hash: string -> string)
    requires KeyFree(db, id) && UniqueAccounts(db)
    ensures UniqueAccounts(Register(db, id, rawEmail, validation, hash).users)
  {
  }

  /** Registering the same email twice: the second attempt is refused with
      EMAIL_EXISTS and stores nothing. */
  lemma RegisterTwiceIsRefused(db: Users, id1: UserKey, id2: UserKey, v1: Registration, validation2: Validation,
                               hash: string -> string)
    requires KeyFree(db, id1)
    requires v1.email != []
    requires Register(db, id1, v1.email, Valid(v1), hash).response.status == 201
    requires KeyFree(Register(db, id1, v1.email, Valid(v1), hash).users, id2) && validation2.Valid?
    ensures var db1 := Register(db, id1, v1.email, Valid(v1), hash).users;
            var second := Register(db1, id2, v1.email, validation2, hash);
            && second.response == Response(400, Refusal(EmailExists, None, EmailExistsMessage))
            && second.users == db1
  {
  }

  // ---------------------------------------------------------------------
  // The profile endpoint
  // ---------------------------------------------------------------------

  /** `user_details` GET: the caller's public view, as `UserSerializer`
      renders it (everything but the write-only password). */
  function ShowProfile(u: User): (v: PublicUser)
    ensures v.id == u.id && v.email == u.email && v.isUser == u.isUser && v.isActive == u.isActive
    ensures v.fullName == u.fullName && v.phone == u.phone
  {
    Public(u)
  }

  /** What `UpdateUserSerializer` renders: its seven fields of the saved row. */
  datatype ProfileView = ProfileView(id: UserKey, email: string, fullName: Option<string>, phone: Option<string>,
                                     isUser: bool, isActive: bool, isAdmin: bool)

  /** A saved update: the stored row, and the status and body of the response. */
  datatype ProfileUpdate = ProfileUpdate(user: User, status: int, view: ProfileView)

  /** `user_details` PUT: a valid partial update is saved and answered with
      202 and the saved row's view; for invalid data the handler returns no
      response at all. */
  function UpdateProfile(u: User, p: Patch, valid: bool): (r: Option<ProfileUpdate>)
    ensures r.Some? <==> valid
    ensures r.Some? ==> var w := r.value.user;
              && w.email == u.email && w.isUser == u.isUser && w.isActive == u.isActive && w.isAdmin == u.isAdmin
              && w.id == u.id && w.password == u.password
              && w.fullName == p.fullName.GetOr(u.fullName) && w.phone == p.phone.GetOr(u.phone)
    ensures r.Some? ==> r.value.user == u.(fullName := p.fullName.GetOr(u.fullName), phone := p.phone.GetOr(u.phone))
    ensures r.Some? ==> r.value.status == 202
    ensures r.Some? ==> r.value.view == ProfileView(u.id, u.email, r.value.user.fullName, r.value.user.phone,
                                                    u.isUser, u.isActive, u.isAdmin)
  {
    if valid then
      UpdateKeepsProtectedFields(u, p);
      var w := ApplyPatch(u, p, UpdateSerializerFields - UpdateSerializerReadOnly);
      Some(ProfileUpdate(w, 202, ProfileView(w.id, w.email, w.fullName, w.phone, w.isUser, w.isActive, w.isAdmin)))
    else None
  }
}
