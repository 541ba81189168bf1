/** AuthContext: the signed-in session of the frontend. It keeps the user in
    memory and in localStorage (the user as JSON, and the id on its own for
    the views), restores it when the app mounts, and turns the backend's
    register and login answers into a session or an error text. */
module AuthSession {
  import opened Common
  import opened Http
  import opened Browser
  import Js
  import Json
  import opened AuthControl

  /** The key under which the user is kept as JSON. */
  const STORAGE_KEY: string := "luminav_user"

  const EMAIL_TAKEN_TEXT: string := "El email ya está registrado"
  const INVALID_DATA_TEXT: string := "Datos inválidos"
  const NETWORK_TEXT: string := "Error de red"
  const REGISTER_FAILED_TEXT: string := "Error al registrar"
  const BAD_CREDENTIALS_TEXT: string := "Credenciales inválidas"
  const LOGIN_FAILED_TEXT: string := "Error al iniciar sesión"
  const UNKNOWN_TEXT: string := "Error desconocido"

  /** The session's user. */
  datatype SessionUser = SessionUser(id: int, fullName: string, email: string, role: string)

  /** The bodies of the two calls. */
  datatype RegisterPayload = RegisterPayload(fullName: string, email: string, password: string)
  datatype LoginPayload = LoginPayload(email: string, password: string)

  /** JSON.stringify of the user: its four fields in declaration order. */
  function UserJson(u: SessionUser): (s: string)
  {
    "{\"id\":" + Js.DecimalText(u.id)
    + ",\"fullName\":" + Json.Quote(u.fullName)
    + ",\"email\":" + Json.Quote(u.email)
    + ",\"role\":" + Json.Quote(u.role) + "}"
  }

  /** localStorage after persistUser: the user's JSON and the user's id
      written out in decimal, everything else kept. */
  function Persisted(storage: Storage, u: SessionUser): (s: Storage)
    ensures STORAGE_KEY in s && s[STORAGE_KEY] == UserJson(u)
    ensures OWNER_KEY in s && s[OWNER_KEY] == Js.DecimalText(u.id)
    ensures forall k :: k in s <==> k in storage || k == STORAGE_KEY || k == OWNER_KEY
    ensures forall k :: k in storage && k != STORAGE_KEY && k != OWNER_KEY ==> s[k] == storage[k]
  {
    storage[STORAGE_KEY := UserJson(u)][OWNER_KEY := Js.DecimalText(u.id)]
  }

  /** localStorage after clearSession: both keys removed. */
  function Cleared(storage: Storage): (s: Storage)
    ensures STORAGE_KEY !in s && OWNER_KEY !in s
    ensures forall k :: k in s <==> k in storage && k != STORAGE_KEY && k != OWNER_KEY
    ensures forall k :: k in s ==> s[k] == storage[k]
  {
    storage - {STORAGE_KEY, OWNER_KEY}
  }

  /** The text shown for a 400: the body when it is a string, a network
      message when there is none, a generic one for any other body. */
  function BadRequestText(body: Body): (t: string)
    ensures body.Text? ==> t == body.text
    ensures body.Absent? ==> t == NETWORK_TEXT
    ensures body.Structured? ==> t == INVALID_DATA_TEXT
  {
    match body
    case Text(s) => s
    case Absent => NETWORK_TEXT
    case Structured => INVALID_DATA_TEXT
  }

  /** The error text of a failed call: `own` for the status the call names
      (409 for register, 401 for login), the 400 text, `fallback` for any
      other axios error (one without a response included), and a generic
      text for an error that is not an axios error. */
  function FailureText<T>(o: Outcome<T>, ownStatus: int, own: string, fallback: string): (t: string)
    requires !o.Success?
    requires ownStatus != BAD_REQUEST
    ensures o.HttpFailure? && o.status == ownStatus ==> t == own
    ensures o.HttpFailure? && o.status == BAD_REQUEST ==> t == BadRequestText(o.body)
    ensures o.HttpFailure? && o.status != ownStatus && o.status != BAD_REQUEST ==> t == fallback
    ensures o.NoResponse? ==> t == fallback
    ensures o.OtherFailure? ==> t == UNKNOWN_TEXT
  {
    match o
    case HttpFailure(status, body) =>
      if status == ownStatus then own
      else if status == BAD_REQUEST then BadRequestText(body)
      else fallback
    case NoResponse => fallback
    case OtherFailure => UNKNOWN_TEXT
  }

  function RegisterErrorText(o: Outcome<RegisterResponse>): string
    requires !o.Success?
  {
    FailureText(o, CONFLICT, EMAIL_TAKEN_TEXT, REGISTER_FAILED_TEXT)
  }

  function LoginErrorText(o: Outcome<LoginResponse>): string
    requires !o.Success?
  {
    FailureText(o, UNAUTHORIZED, BAD_CREDENTIALS_TEXT, LOGIN_FAILED_TEXT)
  }

  class AuthContext {
    var user: Option<SessionUser>
    var storage: Storage
    var isLoading: bool
    var error: Option<string>

    constructor (storage: Storage)
      ensures user.None? && this.storage == storage && !isLoading && error.None?
    {
      user := None;
      this.storage := storage;
      isLoading := false;
      error := None;
    }

    /** The mount effect: a non-empty stored JSON that `parse` (JSON.parse,
        None when it throws) reads becomes the user; otherwise nothing
        changes. */
    method Hydrate(parse: string -> Option<SessionUser>)
      modifies this
      ensures storage == old(storage) && isLoading == old(isLoading) && error == old(error)
      ensures STORAGE_KEY in storage && storage[STORAGE_KEY] != "" && parse(storage[STORAGE_KEY]).Some? ==>
                user == parse(storage[STORAGE_KEY])
      ensures !(STORAGE_KEY in storage && storage[STORAGE_KEY] != "" && parse(storage[STORAGE_KEY]).Some?) ==>
                user == old(user)
    {
      if STORAGE_KEY in storage && storage[STORAGE_KEY] != "" {
        var parsed := parse(storage[STORAGE_KEY]);
        if parsed.Some? {
          user := parsed;
        }
      }
    }

    method PersistUser(u: SessionUser)
      modifies this
      ensures user == Some(u) && storage == Persisted(old(storage), u)
      ensures isLoading == old(isLoading) && error == old(error)
    {
      user := Some(u);
      storage := Persisted(storage, u);
    }

    /** logout (clearSession). */
    method Logout()
      modifies this
      ensures user.None? && storage == Cleared(old(storage))
      ensures isLoading == old(isLoading) && error == old(error)
    {
      user := None;
      storage := Cleared(storage);
    }

    /** register: the call answered by `outcome`; true and a persisted
        session on success, false and the error text otherwise. */
    method Register(name: string, email: string, password: string, outcome: Outcome<RegisterResponse>)
      returns (req: RegisterPayload, ok: bool)
      modifies this
      ensures req == RegisterPayload(name, email, password)
      ensures ok <==> outcome.Success?
      ensures !isLoading
      ensures outcome.Success? ==>
                var d := outcome.data;
                var u := SessionUser(d.id, d.fullName, d.email, d.role);
                user == Some(u) && storage == Persisted(old(storage), u) && error.None?
      ensures !outcome.Success? ==>
                user == old(user) && storage == old(storage) && error == Some(RegisterErrorText(outcome))
    {
      isLoading := true;
      error := None;
      req := RegisterPayload(name, email, password);
      if outcome.Success? {
        var d := outcome.data;
        PersistUser(SessionUser(d.id, d.fullName, d.email, d.role));
        ok := true;
      } else {
        error := Some(RegisterErrorText(outcome));
        ok := false;
      }
      isLoading := false;
    }

    /** login: as register, with the login call's answer and texts. */
    method Login(email: string, password: string, outcome: Outcome<LoginResponse>)
      returns (req: LoginPayload, ok: bool)
      modifies this
      ensures req == LoginPayload(email, password)
      ensures ok <==> outcome.Success?
      ensures !isLoading
      ensures outcome.Success? ==>
                var d := outcome.data;
                var u := SessionUser(d.id, d.fullName, d.email, d.role);
                user == Some(u) && storage == Persisted(old(storage), u) && error.None?
      ensures !outcome.Success? ==>
                user == old(user) && storage == old(storage) && error == Some(LoginErrorText(outcome))
    {
      isLoading := true;
      error := None;
      req := LoginPayload(email, password);
      if outcome.Success? {
        var d := outcome.data;
        PersistUser(SessionUser(d.id, d.fullName, d.email, d.role));
        ok := true;
      } else {
        error := Some(LoginErrorText(outcome));
        ok := false;
      }
      isLoading := false;
    }
  }

  /** After a sign-in every view reads the user's id back, given that
      Number() reads a decimal numeral (`toNumber` is Number()). */
  lemma OwnerIdAfterSignIn(storage: Storage, u: SessionUser, toNumber: string -> Option<real>)
    requires toNumber(Js.DecimalText(u.id)) == Some(u.id as real)
    ensures StoredOwnerId(Persisted(storage, u), toNumber) == Some(u.id as real)
    ensures Active(StoredOwnerId(Persisted(storage, u), toNumber)) <==> u.id != 0
  {
    assert Js.DecimalText(u.id) != "";
  }

  /** After a logout no view has an owner, whatever Number() does. */
  lemma NoOwnerAfterLogout(storage: Storage, toNumber: string -> Option<real>)
    ensures StoredOwnerId(Cleared(storage), toNumber).None?
  {
  }

  /** A reload restores the signed-in user, given that JSON.parse reads back
      what JSON.stringify wrote. */
  lemma ReloadRestoresUser(storage: Storage, u: SessionUser, parse: string -> Option<SessionUser>)
    requires parse(UserJson(u)) == Some(u)
    ensures var s := Persisted(storage, u);
            STORAGE_KEY in s && s[STORAGE_KEY] != "" && parse(s[STORAGE_KEY]) == Some(u)
  {
  }

  /** Every refusal of the backend's login reaches the user as the backend
      worded it: the 400 message verbatim, and the 401 text is the
      backend's own. */
  lemma LoginRefusalShownVerbatim(resp: Response<LoginResponse>)
    requires resp == Error(BAD_REQUEST, MISSING_CREDENTIALS) || resp == Error(UNAUTHORIZED, BAD_CREDENTIALS)
    ensures LoginErrorText(Delivered(resp)) == resp.message
  {
  }

  /** A register refusal for a missing field or a malformed email shows the
      backend's message; a taken email shows the frontend's own wording. */
  lemma RegisterRefusalText(resp: Response<RegisterResponse>)
    requires resp == Error(BAD_REQUEST, MISSING_FIELDS) || resp == Error(BAD_REQUEST, INVALID_EMAIL)
             || resp == Error(CONFLICT, EMAIL_TAKEN)
    ensures RegisterErrorText(Delivered(resp)) == if resp.status == CONFLICT then EMAIL_TAKEN_TEXT else resp.message
  {
  }
}
