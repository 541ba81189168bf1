/** AuthController: registration, whose guards run in a fixed order before
    the one write, and login, which only reads. */
module AuthControl {
  import opened Common
  import opened JavaStrings
  import opened Entities
  import opened Repositories
  import opened Http

  const RESIDENT: string := "RESIDENT"
  const MISSING_FIELDS: string := "fullName, email y password son obligatorios"
  const INVALID_EMAIL: string := "email no es válido"
  const EMAIL_TAKEN: string := "email ya está registrado"
  const MISSING_CREDENTIALS: string := "email y password son obligatorios"
  const BAD_CREDENTIALS: string := "Credenciales inválidas"

  /** The register body; a field the client left out is None. */
  datatype RegisterRequest = RegisterRequest(fullName: Option<string>, email: Option<string>, password: Option<string>)

  datatype RegisterResponse = RegisterResponse(id: Id, fullName: string, email: string, role: string, createdAt: Instant)

  /** The four entries of the login answer. */
  datatype LoginResponse = LoginResponse(id: Id, fullName: string, email: string, role: string)

  /** The password encoder, left abstract (BCrypt in the application). */
  datatype PasswordEncoder = PasswordEncoder(encode: string -> string, matches: (string, string) -> bool)

  /** Present and not blank. */
  predicate Filled(s: Option<string>)
  {
    s.Some? && !IsBlank(s.value)
  }

  predicate NoLineTerminator(s: string)
  {
    forall i :: 0 <= i < |s| ==> !IsLineTerminator(s[i])
  }

  /** The strings the pattern `.+@.+\..+` matches in full: s = a + "@" + b
      + "." + c with a = s[..i], b = s[i+1..j], c = s[j+1..] all non-empty,
      and no line terminator anywhere (the pattern's `.` matches none). */
  ghost predicate EmailShape(s: string)
  {
    && NoLineTerminator(s)
    && exists i, j :: 1 <= i && i + 2 <= j && j + 2 <= |s| && s[i] == '@' && s[j] == '.'
  }

  /** The first position at or after k holding c, or |s|. */
  function IndexFrom(s: string, c: char, k: nat): (i: nat)
    requires k <= |s|
    ensures k <= i <= |s|
    ensures i < |s| ==> s[i] == c
    ensures forall m :: k <= m < i ==> s[m] != c
    decreases |s| - k
  {
    if k == |s| then |s| else if s[k] == c then k else IndexFrom(s, c, k + 1)
  }

  /** The last position before k holding c, or -1. */
  function LastIndexBelow(s: string, c: char, k: nat): (j: int)
    requires k <= |s|
    ensures -1 <= j < k
    ensures j >= 0 ==> s[j] == c
    ensures forall m :: j < m < k ==> s[m] != c
  {
    if k == 0 then -1 else if s[k - 1] == c then k - 1 else LastIndexBelow(s, c, k - 1)
  }

  /** Pattern.compile(".+@.+\\..+").matcher(s).matches(): the earliest
      usable '@' and the latest usable '.' are far enough apart. */
  function MatchesEmail(s: string): bool
  {
    |s| >= 5 && NoLineTerminator(s) && IndexFrom(s, '@', 1) + 2 <= LastIndexBelow(s, '.', |s| - 1)
  }

  /** The matcher accepts exactly the strings of the pattern's shape. */
  lemma MatchesEmailShape(s: string)
    ensures MatchesEmail(s) <==> EmailShape(s)
  {
    if MatchesEmail(s) {
      var i, j := IndexFrom(s, '@', 1), LastIndexBelow(s, '.', |s| - 1);
      assert 1 <= i && i + 2 <= j && j + 2 <= |s| && s[i] == '@' && s[j] == '.';
    }
    if EmailShape(s) {
      var i, j :| 1 <= i && i + 2 <= j && j + 2 <= |s| && s[i] == '@' && s[j] == '.';
      assert IndexFrom(s, '@', 1) <= i;
      assert LastIndexBelow(s, '.', |s| - 1) >= j;
    }
  }

  /** No two stored users share an email (the column is unique). */
  ghost predicate UniqueEmails(rows: seq<User>)
  {
    forall i, j :: 0 <= i < j < |rows| ==> rows[i].email != rows[j].email
  }

  class AuthController {
    const users: UserRepository

    constructor (users: UserRepository)
      ensures this.users == users
    {
      this.users := users;
    }

    /** register: 400 for a missing or blank field, then 400 for an email
        the pattern rejects, then 409 for an email already stored; only then
        one user is saved, with the email as username, the encoded password
        and the RESIDENT role. */
    method Register(req: RegisterRequest, now: Instant, encoder: PasswordEncoder)
      returns (resp: Response<RegisterResponse>)
      requires users.Valid()
      modifies users
      ensures users.Valid()
      ensures !(Filled(req.fullName) && Filled(req.email) && Filled(req.password)) ==>
                resp == Error(BAD_REQUEST, MISSING_FIELDS) && unchanged(users)
      ensures Filled(req.fullName) && Filled(req.email) && Filled(req.password) && !EmailShape(req.email.value) ==>
                resp == Error(BAD_REQUEST, INVALID_EMAIL) && unchanged(users)
      ensures Filled(req.fullName) && Filled(req.email) && Filled(req.password) && EmailShape(req.email.value) &&
              old(users.FindByEmail(req.email.value)).Some? ==>
                resp == Error(CONFLICT, EMAIL_TAKEN) && unchanged(users)
      ensures Filled(req.fullName) && Filled(req.email) && Filled(req.password) && EmailShape(req.email.value) &&
              old(users.FindByEmail(req.email.value)).None? ==>
                var u := User(old(users.nextId), req.email.value, req.email.value, req.fullName.value,
                              encoder.encode(req.password.value), RESIDENT, now);
                && users.rows == old(users.rows) + [u]
                && resp == Ok(RegisterResponse(u.id, u.fullName, u.email, u.role, u.createdAt))
      ensures UniqueEmails(old(users.rows)) ==> UniqueEmails(users.rows)
    {
      if !(Filled(req.fullName) && Filled(req.email) && Filled(req.password)) {
        return Error(BAD_REQUEST, MISSING_FIELDS);
      }
      var email := req.email.value;
      MatchesEmailShape(email);
      if !MatchesEmail(email) {
        return Error(BAD_REQUEST, INVALID_EMAIL);
      }
      if users.FindByEmail(email).Some? {
        return Error(CONFLICT, EMAIL_TAKEN);
      }
      var u := User(0, email, email, req.fullName.value, encoder.encode(req.password.value), RESIDENT, now);
      u := users.Insert(u);
      resp := Ok(RegisterResponse(u.id, u.fullName, u.email, u.role, u.createdAt));
    }

    /** login: 400 for a missing or blank email or password, 401 for an
        unknown email or a password the encoder rejects, otherwise the
        user's id, name, email and role. Nothing is written. */
    method Login(email: Option<string>, password: Option<string>, encoder: PasswordEncoder)
      returns (resp: Response<LoginResponse>)
      ensures !(Filled(email) && Filled(password)) ==> resp == Error(BAD_REQUEST, MISSING_CREDENTIALS)
      ensures Filled(email) && Filled(password) && users.FindByEmail(email.value).None? ==>
                resp == Error(UNAUTHORIZED, BAD_CREDENTIALS)
      ensures Filled(email) && Filled(password) && users.FindByEmail(email.value).Some? ==>
                var u := users.FindByEmail(email.value).value;
                resp == if encoder.matches(password.value, u.passwordHash)
                        then Ok(LoginResponse(u.id, u.fullName, u.email, u.role))
                        else Error(UNAUTHORIZED, BAD_CREDENTIALS)
      ensures resp.Ok? ==> exists u :: u in users.rows && u.email == email.value && resp.body.id == u.id &&
                             encoder.matches(password.value, u.passwordHash)
    {
      if !(Filled(email) && Filled(password)) {
        return Error(BAD_REQUEST, MISSING_CREDENTIALS);
      }
      var found := users.FindByEmail(email.value);
      if found.None? {
        return Error(UNAUTHORIZED, BAD_CREDENTIALS);
      }
      var u := found.value;
      if !encoder.matches(password.value, u.passwordHash) {
        return Error(UNAUTHORIZED, BAD_CREDENTIALS);
      }
      resp := Ok(LoginResponse(u.id, u.fullName, u.email, u.role));
    }
  }
}
