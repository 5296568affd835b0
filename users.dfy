/**
 * The users table behind `/api/usuarios` (Backend/usuarios.js): the login
 * decision, the mapping of database errors on create, and the answers of
 * get, update and delete, which never report a missing id.
 *
 * The table is a sequence in the order the database scans it; a query
 * without `ORDER BY` returns its rows in that order. `email` is unique
 * (constraint `usuarios_email_key`) and so is `id_usuario` (`usuarios_pkey`).
 * Passwords are compared as plain strings.
 */
module Users {
  import opened Js
  import opened Http
  import opened Db
  import opened Seqs

  datatype Usuario = Usuario(
    id_usuario: int, nombre: Option<string>, email: Option<string>,
    contrasena: Option<string>, updated_at: Option<int>)

  /** The fields a client sends to create or update a user. */
  datatype UserBody = UserBody(nombre: JsValue, email: JsValue, contrasena: JsValue)

  /** A table with the answer a handler gives on it. */
  datatype Outcome<T> = Outcome(users: seq<Usuario>, reply: Reply<T>)

  // ---------------------------------------------------------------------------
  // Login

  /** The body of a successful login. */
  datatype LoginOk = LoginOk(message: string, user: Usuario)

  /** `WHERE email = $1 AND contrasena = $2`. */
  predicate Matches(u: Usuario, email: JsValue, contrasena: JsValue)
  {
    u.email == ParamText(email) && u.contrasena == ParamText(contrasena)
  }

  /** `POST /login`. */
  function Login(users: seq<Usuario>, email: JsValue, contrasena: JsValue): (r: Reply<LoginOk>)
    ensures r.Status() in {200, 400, 401}
    ensures r == Error(400, "Faltan credenciales") <==> !Truthy(email) || !Truthy(contrasena)
    ensures r.Ok? <==>
              Truthy(email) && Truthy(contrasena)
              && exists i :: 0 <= i < |users| && Matches(users[i], email, contrasena)
    ensures r.Status() == 401 ==> r == Error(401, "Credenciales inválidas")
    ensures r.Ok? ==> r.value.message == "Login exitoso"
    ensures r.Ok? ==> exists i :: 0 <= i < |users| && users[i] == r.value.user
                                  && Matches(users[i], email, contrasena)
                                  && forall j :: 0 <= j < i ==> !Matches(users[j], email, contrasena)
  {
    if !Truthy(email) || !Truthy(contrasena) then Error(400, "Faltan credenciales")
    else
      match FindIndex(users, u => Matches(u, email, contrasena))
      case None => Error(401, "Credenciales inválidas")
      case Some(i) => Ok(LoginOk("Login exitoso", users[i]))
  }

  /** The stored email and password of any user that has both log that user in,
      unless an earlier user has the same pair. */
  lemma LoginWithOwnCredentials(users: seq<Usuario>, i: nat)
    requires i < |users| && users[i].email.Some? && users[i].contrasena.Some?
    requires users[i].email.value != "" && users[i].contrasena.value != ""
    requires forall j :: 0 <= j < i ==> users[j].email != users[i].email || users[j].contrasena != users[i].contrasena
    ensures Login(users, Str(users[i].email.value), Str(users[i].contrasena.value))
            == Ok(LoginOk("Login exitoso", users[i]))
  {
    var email, contrasena := Str(users[i].email.value), Str(users[i].contrasena.value);
    assert Matches(users[i], email, contrasena);
    var r := Login(users, email, contrasena);
    var k :| 0 <= k < |users| && users[k] == r.value.user && Matches(users[k], email, contrasena)
             && forall j :: 0 <= j < k ==> !Matches(users[j], email, contrasena);
  }

  // ---------------------------------------------------------------------------
  // Create

  /** A failed statement as node-postgres reports it: SQLSTATE code, the
      violated constraint when there is one, and the message. */
  datatype DbError = DbError(code: Option<string>, constraint: Option<string>, message: string)

  const UniqueViolation: string := "23505"

  /** How `POST /` answers the outcome of its `INSERT`. */
  function CreateReply(outcome: Result<Usuario, DbError>): (r: Reply<Usuario>)
    ensures outcome.Success? ==> r == Created(outcome.value)
    ensures r.Created? ==> outcome.Success?
    ensures r == Error(409, "Ya existe un usuario con ese email") <==>
              outcome.Failure? && outcome.error.code == Some(UniqueViolation)
              && outcome.error.constraint == Some("usuarios_email_key")
    ensures r == Error(409, "Conflicto de ID de usuario") <==>
              outcome.Failure? && outcome.error.code == Some(UniqueViolation)
              && outcome.error.constraint == Some("usuarios_pkey")
    ensures r.Status() == 409 ==> outcome.Failure? && outcome.error.code == Some(UniqueViolation)
    ensures r.Status() != 409 && outcome.Failure? ==> r == Error(500, outcome.error.message)
  {
    match outcome
    case Success(u) => Created(u)
    case Failure(e) =>
      if e.code == Some(UniqueViolation) && e.constraint == Some("usuarios_email_key") then
        Error(409, "Ya existe un usuario con ese email")
      else if e.code == Some(UniqueViolation) && e.constraint == Some("usuarios_pkey") then
        Error(409, "Conflicto de ID de usuario")
      else Error(500, e.message)
  }

  /** Another user already has this (non-null) email. */
  predicate EmailTaken(users: seq<Usuario>, email: Option<string>, except: Option<int>)
  {
    email.Some? && exists i :: 0 <= i < |users| && users[i].email == email && Some(users[i].id_usuario) != except
  }

  /** The `INSERT` with `id` as the next value of the id sequence. */
  function Insert(users: seq<Usuario>, b: UserBody, id: int): Result<Usuario, DbError>
  {
    if EmailTaken(users, ParamText(b.email), None) then
      Failure(DbError(Some(UniqueViolation), Some("usuarios_email_key"),
        "duplicate key value violates unique constraint \"usuarios_email_key\""))
    else if exists i :: 0 <= i < |users| && users[i].id_usuario == id then
      Failure(DbError(Some(UniqueViolation), Some("usuarios_pkey"),
        "duplicate key value violates unique constraint \"usuarios_pkey\""))
    else Success(Usuario(id, ParamText(b.nombre), ParamText(b.email), ParamText(b.contrasena), None))
  }

  /** `POST /`: the table afterwards and the answer. */
  function CreateUser(users: seq<Usuario>, b: UserBody, id: int): (o: Outcome<Usuario>)
    ensures o.reply.Created? ==> o.users == users + [o.reply.value]
    ensures !o.reply.Created? ==> o.users == users
    ensures o.reply.Created? ==>
              o.reply.value == Usuario(id, ParamText(b.nombre), ParamText(b.email), ParamText(b.contrasena), None)
    ensures o.reply.Created? <==>
              !EmailTaken(users, ParamText(b.email), None)
              && forall i :: 0 <= i < |users| ==> users[i].id_usuario != id
  {
    var ins := Insert(users, b, id);
    assert ins.Success? <==> !EmailTaken(users, ParamText(b.email), None)
                             && forall i :: 0 <= i < |users| ==> users[i].id_usuario != id;
    var r := CreateReply(ins);
    Outcome(if r.Created? then users + [r.value] else users, r)
  }

  /** Signing up twice with one email: the second attempt answers 409 and adds nothing. */
  lemma DuplicateEmailConflicts(users: seq<Usuario>, b: UserBody, id: int, id2: int)
    requires !Nullish(b.email)
    requires CreateUser(users, b, id).reply.Created?
    ensures var o := CreateUser(CreateUser(users, b, id).users, b, id2);
            o.reply == Error(409, "Ya existe un usuario con ese email") && o.users == CreateUser(users, b, id).users
  {
    var after := CreateUser(users, b, id).users;
    assert after[|after| - 1].email == ParamText(b.email);
  }

  // ---------------------------------------------------------------------------
  // Get, update, delete

  predicate HasId(u: Usuario, id: int)
  {
    u.id_usuario == id
  }

  /** `GET /:id` answered with `rows[0] || {}` (`None` is `{}`): never 404. */
  function GetUser(users: seq<Usuario>, idParam: string): (r: Reply<Option<Usuario>>)
    ensures r.Status() in {200, 500}
    ensures r == Error(500, "Error al obtener usuario") <==> IntegerInput(idParam).None?
    ensures r == Ok(None) <==> IntegerInput(idParam).Some?
                               && forall i :: 0 <= i < |users| ==> users[i].id_usuario != IntegerInput(idParam).value
    ensures r.Ok? && r.value.Some? ==> r.value.value in users && r.value.value.id_usuario == IntegerInput(idParam).value
  {
    match IntegerInput(idParam)
    case None => Error(500, "Error al obtener usuario")
    case Some(id) => Ok(Find(users, u => HasId(u, id)))
  }

  /** The users with `id` take the sent fields and are stamped; the others stay as they were. */
  function Replace(users: seq<Usuario>, id: int, b: UserBody, now: int): (r: seq<Usuario>)
    ensures |r| == |users|
    ensures forall i :: 0 <= i < |users| ==>
              r[i] == if users[i].id_usuario == id
                      then Usuario(id, ParamText(b.nombre), ParamText(b.email), ParamText(b.contrasena), Some(now))
                      else users[i]
  {
    if users == [] then []
    else
      var u := users[0];
      [if u.id_usuario == id then Usuario(id, ParamText(b.nombre), ParamText(b.email), ParamText(b.contrasena), Some(now)) else u]
      + Replace(users[1..], id, b, now)
  }

  /** `PUT /:id` answered with `rows[0] || {}`: an absent id matches no row, so
      nothing is written, no constraint fires and the answer is `{}` with 200;
      for a present id, an email that another user has makes the statement
      fail with 500. */
  function UpdateUser(users: seq<Usuario>, idParam: string, b: UserBody, now: int): (o: Outcome<Option<Usuario>>)
    ensures o.reply.Status() in {200, 500}
    ensures !o.reply.Ok? ==> o.reply == Error(500, "Error al actualizar usuario") && o.users == users
    ensures o.reply == Ok(None) <==>
              IntegerInput(idParam).Some?
              && forall i :: 0 <= i < |users| ==> users[i].id_usuario != IntegerInput(idParam).value
    ensures !o.reply.Ok? <==>
              IntegerInput(idParam).None?
              || ((exists i :: 0 <= i < |users| && users[i].id_usuario == IntegerInput(idParam).value)
                  && EmailTaken(users, ParamText(b.email), IntegerInput(idParam)))
    ensures o.reply == Ok(None) ==> o.users == users
    ensures o.reply.Ok? && o.reply.value.Some? ==>
              IntegerInput(idParam).Some?
              && o.users == Replace(users, IntegerInput(idParam).value, b, now)
              && o.reply.value.value == Usuario(IntegerInput(idParam).value, ParamText(b.nombre), ParamText(b.email),
                                                ParamText(b.contrasena), Some(now))
  {
    match IntegerInput(idParam)
    case None => Outcome(users, Error(500, "Error al actualizar usuario"))
    case Some(id) =>
      match FindIndex(users, u => HasId(u, id))
      case None =>
        NothingReplaced(users, id, b, now);
        Outcome(users, Ok(None))
      case Some(i) =>
        if EmailTaken(users, ParamText(b.email), Some(id)) then Outcome(users, Error(500, "Error al actualizar usuario"))
        else
          var updated := Replace(users, id, b, now);
          Outcome(updated, Ok(Some(updated[i])))
  }

  lemma NothingReplaced(users: seq<Usuario>, id: int, b: UserBody, now: int)
    requires forall i :: 0 <= i < |users| ==> users[i].id_usuario != id
    ensures Replace(users, id, b, now) == users
  {
  }

  /** `DELETE /:id`: 204 whether or not the id existed. */
  function DeleteUser(users: seq<Usuario>, idParam: string): (o: Outcome<Usuario>)
    ensures o.reply == NoContent <==> IntegerInput(idParam).Some?
    ensures !o.reply.NoContent? ==> o.reply == Error(500, "Error al eliminar usuario") && o.users == users
    ensures o.reply.NoContent? ==>
              forall u :: u in o.users <==> u in users && u.id_usuario != IntegerInput(idParam).value
    ensures o.reply.NoContent? ==> Subsequence(o.users, users)
  {
    match IntegerInput(idParam)
    case None => Outcome(users, Error(500, "Error al eliminar usuario"))
    case Some(id) =>
      var kept := Filter(users, u => !HasId(u, id));
      forall u ensures u in kept <==> u in users && u.id_usuario != id {
        FilterMembership(users, u => !HasId(u, id), u);
      }
      Outcome(kept, NoContent)
  }

  /** Deleting an id nobody has answers 204 and leaves the table as it was. */
  lemma DeleteAbsentIsNoOp(users: seq<Usuario>, idParam: string)
    requires IntegerInput(idParam).Some?
    requires forall i :: 0 <= i < |users| ==> users[i].id_usuario != IntegerInput(idParam).value
    ensures DeleteUser(users, idParam) == Outcome(users, NoContent)
  {
    var id := IntegerInput(idParam).value;
    FilterAll(users, u => !HasId(u, id));
  }
}
