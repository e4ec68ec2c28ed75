/** The backend's account rules: registration checks the role, refuses an
    email already registered, and stores trimmed names and a lower-cased,
    trimmed email; sign-in gives one and the same error for an unknown
    email and a wrong password, and never returns the password hash. The
    database, password hashing and hash comparison are parameters. */
module AuthService {
  import opened Base
  import opened Strings
  import opened Js

  /** `USER_ROLES` */
  const UserRoles: seq<string> := ["parent", "doctor", "admin"]

  const InvalidRole: HttpError := HttpError(400, "Invalid user role")
  const EmailTaken: HttpError := HttpError(409, "An account with this email already exists")
  const BadCredentials: HttpError := HttpError(401, "Invalid email or password")

  /** The key `findUserByEmail` looks up: the email lower-cased. */
  function LookupKey(email: string): string {
    ToLowerAscii(email)
  }

  /** The email `createUser` stores: lower-cased, then trimmed. */
  function StoredEmail(email: string): string {
    Trim(ToLowerAscii(email))
  }

  /** The row `createUser` inserts. */
  datatype NewUser = NewUser(firstName: string, lastName: string, email: string, passwordHash: string, role: string)

  /** `USER_ROLES.includes(role)` */
  predicate KnownRole(role: Value) {
    role.Str? && role.s in UserRoles
  }

  /** `createUser`, with `lookup` the user row found for a key and `hash`
      the password hash. */
  function CreateUser(firstName: string, lastName: string, email: string, password: string, role: Value,
                      lookup: string -> Option<map<string, Value>>, hash: string -> string): (r: Result<NewUser>)
    ensures !KnownRole(role) ==> r == Fail(InvalidRole)
    ensures KnownRole(role) && lookup(LookupKey(email)).Some? ==> r == Fail(EmailTaken)
    ensures r.Ok? <==> KnownRole(role) && lookup(LookupKey(email)).None?
    ensures r.Ok? ==> r.value.firstName == Trim(firstName) && r.value.lastName == Trim(lastName)
                      && r.value.email == StoredEmail(email) && r.value.passwordHash == hash(password)
                      && r.value.role == role.s && r.value.role in UserRoles
  {
    if !KnownRole(role) then Fail(InvalidRole)
    else if lookup(LookupKey(email)).Some? then Fail(EmailTaken)
    else Ok(NewUser(Trim(firstName), Trim(lastName), StoredEmail(email), hash(password), role.s))
  }

  /** The role is checked before the email. */
  lemma RoleCheckedFirst(firstName: string, lastName: string, email: string, password: string, role: Value,
                         lookup: string -> Option<map<string, Value>>, hash: string -> string)
    requires !KnownRole(role)
    ensures CreateUser(firstName, lastName, email, password, role, lookup, hash) == Fail(InvalidRole)
  {
  }

  /** A stored email is its own lookup key: whoever registered is found
      again under the email kept for them. */
  lemma StoredEmailLooksUpItself(email: string)
    ensures LookupKey(StoredEmail(email)) == StoredEmail(email)
    ensures StoredEmail(StoredEmail(email)) == StoredEmail(email)
  {
    var l := ToLowerAscii(email);
    LowerCaseFixed(email);
    TrimmedLowerFixed(l);
    TrimIdempotent(l);
  }

  /** Trimming lower-cased text leaves lower-cased text. */
  lemma TrimmedLowerFixed(l: string)
    requires forall n :: 0 <= n < |l| ==> LowerAscii(l[n]) == l[n]
    ensures ToLowerAscii(Trim(l)) == Trim(l)
  {
    TrimShape(l);
    var k := |l| - |TrimStart(l)|;
    LowerInfixFixed(l, k, k + |Trim(l)|);
  }

  lemma LowerCaseFixed(s: string)
    ensures forall i :: 0 <= i < |s| ==> LowerAscii(ToLowerAscii(s)[i]) == ToLowerAscii(s)[i]
  {
  }

  lemma LowerInfixFixed(l: string, i: int, j: int)
    requires 0 <= i <= j <= |l|
    requires forall n :: 0 <= n < |l| ==> LowerAscii(l[n]) == l[n]
    ensures ToLowerAscii(l[i..j]) == l[i..j]
  {
    var r := l[i..j];
    assert forall n :: 0 <= n < |r| ==> r[n] == l[i + n];
  }

  /** The duplicate check looks up the untrimmed email while the trimmed one
      is stored: an email with a leading space is not found under the key
      of the account it duplicates. */
  lemma PaddedEmailMissesLookup()
    ensures StoredEmail(" a@b") == "a@b" == StoredEmail("a@b")
    ensures LookupKey(" a@b") != LookupKey("a@b")
  {
    assert ToLowerAscii(" a@b") == " a@b" by {
      LowerCaseFixed(" a@b");
    }
    assert ToLowerAscii("a@b") == "a@b";
    NotPadded("a@b");
    assert IsJsWhitespace(" a@b"[0]);
    assert " a@b"[1..] == "a@b";
    assert TrimStart(" a@b") == TrimStart("a@b");
  }

  /** Text that starts and ends with letters is left alone by trim. */
  lemma NotPadded(s: string)
    requires |s| > 0 && 'a' <= s[0] <= 'z' && 'a' <= s[|s| - 1] <= 'z'
    ensures TrimStart(s) == s && TrimEnd(s) == s && Trim(s) == s
  {
    assert !IsJsWhitespace(s[0]);
    assert !IsJsWhitespace(s[|s| - 1]);
    TrimNoop(s);
  }

  /** `verifyCredentials`, with `lookup` the user row found for a key and
      `compare` the comparison of a password with a stored hash. */
  function VerifyCredentials(email: string, password: string, lookup: string -> Option<map<string, Value>>,
                             compare: (string, Value) -> bool): (r: Result<map<string, Value>>)
    ensures r.Fail? ==> r.error == BadCredentials
    ensures r.Ok? <==> var user := lookup(LookupKey(email));
                       user.Some? && compare(password, Get(user.value, "passwordHash"))
    ensures r.Ok? ==> var user := lookup(LookupKey(email)).value;
                      r.value.Keys == user.Keys - {"passwordHash"}
                      && forall k :: k in r.value ==> r.value[k] == user[k]
  {
    match lookup(LookupKey(email))
    case None => Fail(BadCredentials)
    case Some(user) =>
      if !compare(password, Get(user, "passwordHash")) then Fail(BadCredentials)
      else Ok(user - {"passwordHash"})
  }

  /** An unknown email and a wrong password cannot be told apart. */
  lemma FailuresAlike(email: string, password: string, user: map<string, Value>, compare: (string, Value) -> bool)
    requires !compare(password, Get(user, "passwordHash"))
    ensures VerifyCredentials(email, password, _ => None, compare) == VerifyCredentials(email, password, _ => Some(user), compare)
  {
  }
}
