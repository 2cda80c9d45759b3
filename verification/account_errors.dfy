/**
  The error vocabulary of the account endpoints: the codes their JSON error
  bodies carry, and the exceptions raised inside the account code whose
  messages a response may echo.
 */
module AccountErrors {
  import opened Wrappers

  /** The `code` of an account endpoint's error body; each constructor
      stands for the upper-case, underscore-separated code of the same words
      (`EmailExists` for EMAIL_EXISTS). */
  datatype ErrorCode =
    | EmailRequired
    | PasswordRequired
    | UserNotFound
    | InvalidCredentials
    | AccountInactive
    | EmailExists
    | InvalidEmail
    | InvalidPassword
    | InvalidPhone
    | InvalidUsername
    | ValidationError
    | ServerError

  /** An exception raised inside the account code. A 500 response can carry
      the KeyError, StopIteration, IndexError and unique-violation texts; the
      user manager's three ValueErrors are raised only outside the handlers. */
  datatype Fault =
    | EmailMissing                 // ValueError from the user manager
    | StaffFlagRequired            // ValueError from the user manager
    | SuperuserFlagRequired        // ValueError from the user manager
    | UniqueViolation(column: string)  // IntegrityError from the user table
    | KeyMissing(key: string)      // KeyError reading validated data
    | NoErrorEntries               // StopIteration from an empty error mapping
    | NoErrorMessages              // IndexError from an empty message list

  /** `str(e)` of the exception: the text a 500 response carries. A unique
      violation is worded as SQLite words it; other database backends word it
      differently. */
  function ExceptionText(f: Fault): (m: string)
    ensures m == [] <==> f.NoErrorEntries?
    ensures f.KeyMissing? ==> |m| == |f.key| + 2 && m[0] == '\'' && m[|m| - 1] == '\'' && m[1..|m| - 1] == f.key
  {
    match f
    case EmailMissing => "Email is Required"
    case StaffFlagRequired => "Superuser must have is_staff = True"
    case SuperuserFlagRequired => "Superuser must have is_superuser = True"
    case UniqueViolation(column) => UniquePrefix + column
    case KeyMissing(key) => "'" + key + "'"
    case NoErrorEntries => ""
    case NoErrorMessages => "list index out of range"
  }

  const UniquePrefix: string := "UNIQUE constraint failed: account_user."

  /** The message tells the exception apart: no two different faults raised
      by the account code produce the same text. */
  lemma ExceptionTextIdentifiesFault(f: Fault, g: Fault)
    ensures ExceptionText(f) == ExceptionText(g) <==> f == g
  {
    var m := ExceptionText(f);
    if m == ExceptionText(g) {
      assert Lead(f) == Lead(g);
      if f.UniqueViolation? && g.UniqueViolation? {
        assert f.column == m[|UniquePrefix|..] == g.column;
      } else if f.KeyMissing? && g.KeyMissing? {
        assert f.key == m[1..|m| - 1] == g.key;
      }
    }
  }

  /** The first character of an exception text, if any; it names the kind
      of fault except between the two flag errors. */
  function Lead(f: Fault): (c: Option<char>)
    ensures c.None? <==> ExceptionText(f) == []
    ensures c.Some? ==> c.value == ExceptionText(f)[0]
  {
    match f
    case EmailMissing => Some('E')
    case StaffFlagRequired => Some('S')
    case SuperuserFlagRequired => Some('S')
    case UniqueViolation(_) => Some('U')
    case KeyMissing(_) => Some('\'')
    case NoErrorEntries => None
    case NoErrorMessages => Some('l')
  }
}
