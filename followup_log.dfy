/**
 * The follow-up log behind `/api/seguimientos` (Backend/seguimientos.js): a
 * create handler that validates its payload in three stages and appends only a
 * payload that passes all of them, and three listings — every follow-up by id,
 * the follow-ups of one lead newest first, and every follow-up that has a lead,
 * joined with that lead's `medio_reg`, newest first.
 *
 * `motivo` and `estado` are PostgreSQL enums, `id_reg` and `id_usuario`
 * integers; `fecha` and `hora` are kept as the text sent, and their order is
 * the order of `Db.MomentLe`.
 */
module FollowUpLog {
  import opened Js
  import opened Http
  import opened Db
  import opened Seqs
  import LeadStore

  // ---------------------------------------------------------------------------
  // The two closed sets of values

  datatype Motivo = PrimeraLlamada | SegundaLlamada | TerceraLlamada | EnvioWhatsapp | CancelacionRegistro

  datatype Estado = EnSeguimiento | Cerrado | Pendiente | Finalizado

  /** The accepted `motivo` strings, in the handler's order. */
  const MotivosValidos: seq<string> :=
    ["1RA LLAMADA", "2DA LLAMADA", "3RA LLAMADA", "ENVIO DE WHATSAPP", "CANCELACIÓN DE REGISTRO"]

  /** The accepted `estado` strings, in the handler's order. */
  const EstadosValidos: seq<string> := ["EN SEGUIMIENTO", "CERRADO", "PENDIENTE", "FINALIZADO"]

  function MotivoText(m: Motivo): string
  {
    match m
    case PrimeraLlamada => MotivosValidos[0]
    case SegundaLlamada => MotivosValidos[1]
    case TerceraLlamada => MotivosValidos[2]
    case EnvioWhatsapp => MotivosValidos[3]
    case CancelacionRegistro => MotivosValidos[4]
  }

  function EstadoText(e: Estado): string
  {
    match e
    case EnSeguimiento => EstadosValidos[0]
    case Cerrado => EstadosValidos[1]
    case Pendiente => EstadosValidos[2]
    case Finalizado => EstadosValidos[3]
  }

  /** Reads a `motivo`: exactly the listed strings are accepted, each as its own value. */
  function ParseMotivo(s: string): (r: Option<Motivo>)
    ensures r.Some? <==> s in MotivosValidos
    ensures r.Some? ==> MotivoText(r.value) == s
  {
    if s == MotivosValidos[0] then Some(PrimeraLlamada)
    else if s == MotivosValidos[1] then Some(SegundaLlamada)
    else if s == MotivosValidos[2] then Some(TerceraLlamada)
    else if s == MotivosValidos[3] then Some(EnvioWhatsapp)
    else if s == MotivosValidos[4] then Some(CancelacionRegistro)
    else None
  }

  /** Reads an `estado`: exactly the listed strings are accepted, each as its own value. */
  function ParseEstado(s: string): (r: Option<Estado>)
    ensures r.Some? <==> s in EstadosValidos
    ensures r.Some? ==> EstadoText(r.value) == s
  {
    if s == EstadosValidos[0] then Some(EnSeguimiento)
    else if s == EstadosValidos[1] then Some(Cerrado)
    else if s == EstadosValidos[2] then Some(Pendiente)
    else if s == EstadosValidos[3] then Some(Finalizado)
    else None
  }

  /** Five distinct motives and four distinct statuses, each read back as itself. */
  lemma ClosedSets()
    ensures |MotivosValidos| == 5 && |EstadosValidos| == 4
    ensures forall m :: ParseMotivo(MotivoText(m)) == Some(m)
    ensures forall e :: ParseEstado(EstadoText(e)) == Some(e)
    ensures forall s :: s in MotivosValidos <==> exists m :: MotivoText(m) == s
    ensures forall s :: s in EstadosValidos <==> exists e :: EstadoText(e) == s
  {
    forall s | s in MotivosValidos
      ensures exists m :: MotivoText(m) == s
    {
      assert MotivoText(ParseMotivo(s).value) == s;
    }
    forall s | s in EstadosValidos
      ensures exists e :: EstadoText(e) == s
    {
      assert EstadoText(ParseEstado(s).value) == s;
    }
  }

  // ---------------------------------------------------------------------------
  // Create

  /** The JSON body of `POST /`. */
  datatype Body = Body(
    id_reg: JsValue, fecha: JsValue, hora: JsValue, motivo: JsValue,
    notas: JsValue, estado: JsValue, id_usuario: JsValue)

  /** A stored follow-up. `notas` may be NULL; every other column is set. */
  datatype Seguimiento = Seguimiento(
    id_seg: int, id_reg: int, fecha: string, hora: string, motivo: Motivo,
    notas: Option<string>, estado: Estado, id_usuario: int)

  /** The six required fields are truthy; `notas` is not required. */
  predicate RequiredPresent(b: Body)
  {
    Truthy(b.id_reg) && Truthy(b.fecha) && Truthy(b.hora) && Truthy(b.motivo)
    && Truthy(b.estado) && Truthy(b.id_usuario)
  }

  /** `list.includes(v)`: only a string can equal a listed string. */
  predicate Includes(list: seq<string>, v: JsValue)
  {
    v.Str? && v.s in list
  }

  datatype Rejection = MissingFields | InvalidMotivo | InvalidEstado

  function RejectionMessage(e: Rejection): string
  {
    match e
    case MissingFields => "Faltan campos obligatorios"
    case InvalidMotivo => "Motivo no válido"
    case InvalidEstado => "Estado no válido"
  }

  /** The motive and status of a payload that passed the checks. */
  datatype Checked = Checked(motivo: Motivo, estado: Estado)

  /** The three checks, in order: required fields, then motive, then status. */
  function Validate(b: Body): (r: Result<Checked, Rejection>)
    ensures r == Failure(MissingFields) <==> !RequiredPresent(b)
    ensures r == Failure(InvalidMotivo) <==> RequiredPresent(b) && !Includes(MotivosValidos, b.motivo)
    ensures r == Failure(InvalidEstado) <==>
              RequiredPresent(b) && Includes(MotivosValidos, b.motivo) && !Includes(EstadosValidos, b.estado)
    ensures r.Success? ==> RequiredPresent(b)
    ensures r.Success? ==> b.motivo == Str(MotivoText(r.value.motivo)) && b.estado == Str(EstadoText(r.value.estado))
  {
    if !RequiredPresent(b) then Failure(MissingFields)
    else if !Includes(MotivosValidos, b.motivo) then Failure(InvalidMotivo)
    else if !Includes(EstadosValidos, b.estado) then Failure(InvalidEstado)
    else Success(Checked(ParseMotivo(b.motivo.s).value, ParseEstado(b.estado.s).value))
  }

  /** The row `INSERT ... RETURNING *` gives back, or `None` when PostgreSQL
      rejects an id that is not a 32-bit integer. Truthy `fecha` and `hora`
      are never null, so they are sent as their text. */
  function Stored(b: Body, c: Checked, id: int): Option<Seguimiento>
  {
    var idReg := IntegerParam(b.id_reg);
    var idUsuario := IntegerParam(b.id_usuario);
    if idReg.Some? && idUsuario.Some? then
      Some(Seguimiento(id, idReg.value, ToJsString(b.fecha), ToJsString(b.hora), c.motivo,
                       ParamText(b.notas), c.estado, idUsuario.value))
    else None
  }

  /** The stored row holds the seven given values. */
  predicate Carries(row: Seguimiento, b: Body)
  {
    && IntegerParam(b.id_reg) == Some(row.id_reg)
    && ParamText(b.fecha) == Some(row.fecha)
    && ParamText(b.hora) == Some(row.hora)
    && b.motivo == Str(MotivoText(row.motivo))
    && ParamText(b.notas) == row.notas
    && b.estado == Str(EstadoText(row.estado))
    && IntegerParam(b.id_usuario) == Some(row.id_usuario)
  }

  /** The answer to `POST /` when the next id is `id`. */
  function CreateReply(b: Body, id: int): (r: Reply<Seguimiento>)
    ensures r.Status() in {201, 400, 500}
    ensures r.Status() == 400 <==> Validate(b).Failure?
    ensures r.Status() == 400 ==> r == Error(400, RejectionMessage(Validate(b).error))
    ensures r.Status() == 500 ==> r == Error(500, "No se pudo agregar el seguimiento")
    ensures r.Status() == 500 <==>
              Validate(b).Success? && (IntegerParam(b.id_reg).None? || IntegerParam(b.id_usuario).None?)
    ensures r.Created? ==> r.value.id_seg == id && Carries(r.value, b)
  {
    match Validate(b)
    case Failure(e) => Error(400, RejectionMessage(e))
    case Success(c) =>
      match Stored(b, c, id)
      case None => Error(500, "No se pudo agregar el seguimiento")
      case Some(row) => Created(row)
  }

  /** The checks run in order: a payload with both an invalid motive and an
      invalid status is answered with the motive error. */
  lemma BothInvalidReportsMotivo(b: Body, id: int)
    requires RequiredPresent(b)
    requires !Includes(MotivosValidos, b.motivo) && !Includes(EstadosValidos, b.estado)
    ensures CreateReply(b, id) == Error(400, "Motivo no válido")
  {
  }

  /** An empty status is missing, not invalid, whatever the motive. */
  lemma EmptyEstadoReportsMissing(b: Body, id: int)
    requires b.estado == Str("")
    ensures CreateReply(b, id) == Error(400, "Faltan campos obligatorios")
  {
  }

  /** `notas` takes no part in the checks. */
  lemma NotasNeverChecked(b: Body, notas: JsValue)
    ensures Validate(b.(notas := notas)) == Validate(b)
  {
  }

  /** The body a client sends to store `row` again. */
  function BodyOf(row: Seguimiento): Body
  {
    Body(Num(row.id_reg), Str(row.fecha), Str(row.hora), Str(MotivoText(row.motivo)),
         match row.notas case None => Null case Some(s) => Str(s),
         Str(EstadoText(row.estado)), Num(row.id_usuario))
  }

  lemma MotivoRoundTrip(m: Motivo)
    ensures ParseMotivo(MotivoText(m)) == Some(m)
  {
  }

  lemma EstadoRoundTrip(e: Estado)
    ensures ParseEstado(EstadoText(e)) == Some(e)
  {
  }

  lemma ValidateBodyOf(row: Seguimiento)
    requires row.id_reg != 0 && row.id_usuario != 0 && row.fecha != "" && row.hora != ""
    ensures Validate(BodyOf(row)) == Success(Checked(row.motivo, row.estado))
  {
    MotivoRoundTrip(row.motivo);
    EstadoRoundTrip(row.estado);
  }

  lemma StoredBodyOf(row: Seguimiento)
    requires Int32Min <= row.id_reg <= Int32Max && Int32Min <= row.id_usuario <= Int32Max
    ensures Stored(BodyOf(row), Checked(row.motivo, row.estado), row.id_seg) == Some(row)
  {
    IntegerParamOfNum(row.id_reg);
    IntegerParamOfNum(row.id_usuario);
    StoredOfParams(BodyOf(row), Checked(row.motivo, row.estado), row);
  }

  lemma StoredOfParams(b: Body, c: Checked, row: Seguimiento)
    requires IntegerParam(b.id_reg) == Some(row.id_reg) && IntegerParam(b.id_usuario) == Some(row.id_usuario)
    requires b.fecha == Str(row.fecha) && b.hora == Str(row.hora) && ParamText(b.notas) == row.notas
    requires c == Checked(row.motivo, row.estado)
    ensures Stored(b, c, row.id_seg) == Some(row)
  {
  }

  /** Every storable follow-up can be created: sending its fields under the next
      id gives back exactly that row. */
  lemma CreateOfBodyOf(row: Seguimiento)
    requires row.id_reg != 0 && Int32Min <= row.id_reg <= Int32Max
    requires row.id_usuario != 0 && Int32Min <= row.id_usuario <= Int32Max
    requires row.fecha != "" && row.hora != ""
    ensures CreateReply(BodyOf(row), row.id_seg) == Created(row)
  {
    ValidateBodyOf(row);
    StoredBodyOf(row);
  }

  // ---------------------------------------------------------------------------
  // The table

  /** Ids strictly ascending: the order rows are appended in. */
  predicate IdsAscending(rows: seq<Seguimiento>)
  {
    forall i, j :: 0 <= i < j < |rows| ==> rows[i].id_seg < rows[j].id_seg
  }

  class FollowUpTable {
    var rows: seq<Seguimiento>
    /** The next value of the `id_seg` sequence. */
    var nextId: int

    ghost predicate Valid()
      reads this
    {
      && nextId >= 1
      && IdsAscending(rows)
      && forall i :: 0 <= i < |rows| ==> 1 <= rows[i].id_seg < nextId
    }

    constructor()
      ensures Valid()
      ensures rows == [] && nextId == 1
    {
      rows := [];
      nextId := 1;
    }

    /** `POST /`: a payload that passes the three checks is appended as one new
        row under a fresh id and answered 201 with it; otherwise the table is
        left as it was. No existing row changes. */
    method Create(body: Body) returns (reply: Reply<Seguimiento>)
      requires Valid()
      modifies this
      ensures Valid()
      ensures reply == CreateReply(body, old(nextId))
      ensures reply.Created? ==> rows == old(rows) + [reply.value] && nextId == old(nextId) + 1
      ensures !reply.Created? ==> rows == old(rows) && nextId == old(nextId)
    {
      reply := CreateReply(body, nextId);
      if reply.Created? {
        rows := rows + [reply.value];
        nextId := nextId + 1;
      }
    }
  }

  // ---------------------------------------------------------------------------
  // Listings

  predicate IdLe(a: Seguimiento, b: Seguimiento)
  {
    a.id_seg <= b.id_seg
  }

  lemma IdLeIsTotalPreorder()
    ensures TotalPreorder(IdLe)
  {
  }

  /** `GET /`: `SELECT * FROM seguimientos ORDER BY id_seg ASC`. */
  function ListAll(rows: seq<Seguimiento>): (r: seq<Seguimiento>)
    ensures multiset(r) == multiset(rows)
    ensures Sorted(r, IdLe)
  {
    IdLeIsTotalPreorder();
    SortBy(rows, IdLe)
  }

  /** Two listings of the same rows, one sorted by id and one with strictly
      ascending ids, are the same listing. */
  lemma {:induction false} AscendingIsUnique(r: seq<Seguimiento>, s: seq<Seguimiento>)
    requires multiset(r) == multiset(s)
    requires Sorted(r, IdLe) && IdsAscending(s)
    ensures r == s
    decreases |s|
  {
    assert |r| == |multiset(r)| == |multiset(s)| == |s|;
    if s != [] {
      SameHead(r, s);
      TailMultiset(r);
      TailMultiset(s);
      AscendingIsUnique(r[1..], s[1..]);
      assert r == [r[0]] + r[1..] && s == [s[0]] + s[1..];
    }
  }

  lemma SameHead(r: seq<Seguimiento>, s: seq<Seguimiento>)
    requires multiset(r) == multiset(s) && r != [] && s != []
    requires Sorted(r, IdLe) && IdsAscending(s)
    ensures r[0] == s[0]
  {
    assert r[0] in multiset(s) && s[0] in multiset(r);
    var k :| 0 <= k < |s| && s[k] == r[0];
    var m :| 0 <= m < |r| && r[m] == s[0];
    assert IdLe(r[0], r[m]);
  }

  lemma TailMultiset<T>(s: seq<T>)
    requires s != []
    ensures multiset(s[1..]) == multiset(s) - multiset{s[0]}
  {
    assert s == [s[0]] + s[1..];
  }

  /** The plain listing of a valid table is the table itself, in insertion order. */
  lemma ListAllIsTableOrder(rows: seq<Seguimiento>)
    requires IdsAscending(rows)
    ensures ListAll(rows) == rows
  {
    AscendingIsUnique(ListAll(rows), rows);
  }

  /** `a` comes no later than `b` in `ORDER BY fecha DESC, hora DESC`. */
  predicate NewestFirst(a: Seguimiento, b: Seguimiento)
  {
    MomentLe(b.fecha, b.hora, a.fecha, a.hora)
  }

  lemma NewestFirstIsTotalPreorder()
    ensures TotalPreorder(NewestFirst)
  {
    forall a: Seguimiento, b: Seguimiento
      ensures NewestFirst(a, b) || NewestFirst(b, a)
    {
      MomentLeTotal(a.fecha, a.hora, b.fecha, b.hora);
    }
    forall a: Seguimiento, b: Seguimiento, c: Seguimiento | NewestFirst(a, b) && NewestFirst(b, c)
      ensures NewestFirst(a, c)
    {
      MomentLeTransitive(c.fecha, c.hora, b.fecha, b.hora, a.fecha, a.hora);
    }
  }

  /** A sequence whose multiset is empty is empty. */
  lemma NothingCounted<T>(s: seq<T>)
    requires forall x :: multiset(s)[x] == 0
    ensures s == []
  {
    assert |s| == |multiset(s)|;
  }

  /** `GET /registro/:id`: the follow-ups of one lead, newest first. No
      follow-up is not an error: the answer is then the empty list. */
  function ListByLead(rows: seq<Seguimiento>, idParam: string): (r: Reply<seq<Seguimiento>>)
    ensures r.Ok? <==> IntegerInput(idParam).Some?
    ensures !r.Ok? ==> r == Error(500, "Error al obtener seguimientos del registro")
    ensures r.Ok? ==> forall x :: multiset(r.value)[x] ==
                        if x.id_reg == IntegerInput(idParam).value then multiset(rows)[x] else 0
    ensures r.Ok? ==> Sorted(r.value, NewestFirst)
    ensures r.Ok? && (forall i :: 0 <= i < |rows| ==> rows[i].id_reg != IntegerInput(idParam).value)
            ==> r.value == []
  {
    match IntegerInput(idParam)
    case None => Error(500, "Error al obtener seguimientos del registro")
    case Some(id) =>
      NewestFirstIsTotalPreorder();
      var listed := SortBy(Filter(rows, (x: Seguimiento) => x.id_reg == id), NewestFirst);
      if forall i :: 0 <= i < |rows| ==> rows[i].id_reg != id then
        NothingCounted(listed);
        Ok(listed)
      else
        Ok(listed)
  }

  /** A follow-up extended with its lead's `medio_reg`. */
  datatype Joined = Joined(seg: Seguimiento, medio_reg: Option<string>)

  /** `s JOIN r ON s.id_reg = r.id_reg` for one follow-up. */
  predicate JoinsTo(j: Joined, leads: map<int, LeadStore.Lead>)
  {
    j.seg.id_reg in leads && j.medio_reg == leads[j.seg.id_reg].fields.medio_reg
  }

  function JoinAll(rows: seq<Seguimiento>, leads: map<int, LeadStore.Lead>): (r: seq<Joined>)
    ensures forall j :: multiset(r)[j] == if JoinsTo(j, leads) then multiset(rows)[j.seg] else 0
  {
    if rows == [] then []
    else
      assert rows == [rows[0]] + rows[1..];
      var rest := JoinAll(rows[1..], leads);
      var s := rows[0];
      if s.id_reg in leads then
        var j0 := Joined(s, leads[s.id_reg].fields.medio_reg);
        assert forall j :: JoinsTo(j, leads) && j.seg == s ==> j == j0;
        [j0] + rest
      else rest
  }

  predicate JoinedNewestFirst(a: Joined, b: Joined)
  {
    NewestFirst(a.seg, b.seg)
  }

  /** `GET /joinRegistros`: every follow-up whose lead exists, once, with that
      lead's `medio_reg`, newest first; follow-ups without a lead are left out. */
  function ListJoined(rows: seq<Seguimiento>, leads: map<int, LeadStore.Lead>): (r: seq<Joined>)
    ensures forall j :: multiset(r)[j] == if JoinsTo(j, leads) then multiset(rows)[j.seg] else 0
    ensures Sorted(r, JoinedNewestFirst)
  {
    NewestFirstIsTotalPreorder();
    assert TotalPreorder(JoinedNewestFirst) by {
      forall a: Joined, b: Joined
        ensures JoinedNewestFirst(a, b) || JoinedNewestFirst(b, a)
      {
        assert NewestFirst(a.seg, b.seg) || NewestFirst(b.seg, a.seg);
      }
      forall a: Joined, b: Joined, c: Joined | JoinedNewestFirst(a, b) && JoinedNewestFirst(b, c)
        ensures JoinedNewestFirst(a, c)
      {
        assert NewestFirst(a.seg, b.seg) && NewestFirst(b.seg, c.seg);
      }
    }
    SortBy(JoinAll(rows, leads), JoinedNewestFirst)
  }

  /** Every follow-up of an existing lead is listed with that lead's channel,
      and everything listed is such a follow-up. */
  lemma JoinedMembership(rows: seq<Seguimiento>, leads: map<int, LeadStore.Lead>, s: Seguimiento)
    ensures s in rows && s.id_reg in leads ==>
              Joined(s, leads[s.id_reg].fields.medio_reg) in ListJoined(rows, leads)
    ensures forall j :: j in ListJoined(rows, leads) ==> j.seg in rows && JoinsTo(j, leads)
  {
    var r := ListJoined(rows, leads);
    if s in rows && s.id_reg in leads {
      assert multiset(r)[Joined(s, leads[s.id_reg].fields.medio_reg)] == multiset(rows)[s] > 0;
    }
    forall j | j in r
      ensures j.seg in rows && JoinsTo(j, leads)
    {
      assert multiset(r)[j] > 0;
    }
  }
}
