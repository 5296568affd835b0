/**
 * The leads table behind `/api/registros` (Backend/registros.js): a keyed
 * table with an ascending listing, a lookup by phone number, a lookup by id,
 * and create, full-replacement update and delete. Ids come from a serial
 * counter; `updated_at` is stamped by the update only.
 *
 * Every lead column holds the text node-postgres sends for the field
 * (`None` is SQL NULL). Route parameters arrive as text and are read as
 * PostgreSQL integers; text that is not one makes the statement fail, which
 * the handler answers with 500.
 */
module LeadStore {
  import opened Js
  import opened Http
  import opened Db

  /** The eight fields a client sends. */
  datatype LeadBody = LeadBody(
    nombre_reg: JsValue, apellido_reg: JsValue, cel_reg: JsValue, medio_reg: JsValue,
    fecha_reg: JsValue, curso_reg: JsValue, num_interesados: JsValue, tip_lead: JsValue)

  /** The eight stored columns. */
  datatype LeadFields = LeadFields(
    nombre_reg: Option<string>, apellido_reg: Option<string>, cel_reg: Option<string>,
    medio_reg: Option<string>, fecha_reg: Option<string>, curso_reg: Option<string>,
    num_interesados: Option<string>, tip_lead: Option<string>)

  /** A stored lead; `updated_at` is the moment of the last update, if any. */
  datatype Lead = Lead(id_reg: int, fields: LeadFields, updated_at: Option<int>)

  /** The columns written from a body: each field's parameter text, with no validation. */
  function Columns(b: LeadBody): LeadFields
  {
    LeadFields(
      ParamText(b.nombre_reg), ParamText(b.apellido_reg), ParamText(b.cel_reg),
      ParamText(b.medio_reg), ParamText(b.fecha_reg), ParamText(b.curso_reg),
      ParamText(b.num_interesados), ParamText(b.tip_lead))
  }

  /** The body a client sends to store `f` again: a string per non-null column. */
  function BodyOf(f: LeadFields): LeadBody
  {
    LeadBody(
      Param(f.nombre_reg), Param(f.apellido_reg), Param(f.cel_reg), Param(f.medio_reg),
      Param(f.fecha_reg), Param(f.curso_reg), Param(f.num_interesados), Param(f.tip_lead))
  }

  function Param(t: Option<string>): JsValue
  {
    match t
    case None => Null
    case Some(s) => Str(s)
  }

  /** Sending the stored columns back stores exactly them: no field is altered on the way. */
  lemma ColumnsOfBodyOf(f: LeadFields)
    ensures Columns(BodyOf(f)) == f
  {
  }

  /** Every lead is filed under its own id. */
  ghost predicate KeysMatch(leads: map<int, Lead>)
  {
    forall k :: k in leads ==> leads[k].id_reg == k
  }

  // ---------------------------------------------------------------------------
  // Read-only selections

  lemma NonEmptyHasElement(keys: set<int>)
    requires keys != {}
    ensures exists x :: x in keys
  {
    if forall x :: x !in keys {
      assert false;
    }
  }

  /** The smallest id in use. */
  ghost function MinKey(keys: set<int>): (m: int)
    requires keys != {}
    ensures m in keys && forall j :: j in keys ==> m <= j
    decreases |keys|
  {
    NonEmptyHasElement(keys);
    var x :| x in keys;
    if keys == {x} then x
    else
      var m := MinKey(keys - {x});
      assert forall j :: j in keys ==> j == x || j in keys - {x};
      if x < m then x else m
  }

  /** `SELECT * FROM registros ORDER BY id_reg ASC`: every lead once, ids ascending. */
  ghost function ListLeads(leads: map<int, Lead>): (r: seq<Lead>)
    requires KeysMatch(leads)
    ensures |r| == |leads|
    ensures forall i, j :: 0 <= i < j < |r| ==> r[i].id_reg < r[j].id_reg
    ensures forall l :: l in r <==> l.id_reg in leads && leads[l.id_reg] == l
    decreases |leads|
  {
    if leads == map[] then []
    else
      var k := MinKey(leads.Keys);
      var tail := ListLeads(leads - {k});
      ListLeadsStep(leads, k, tail);
      [leads[k]] + tail
  }

  lemma ListLeadsStep(leads: map<int, Lead>, k: int, tail: seq<Lead>)
    requires KeysMatch(leads) && k in leads && forall j :: j in leads ==> k <= j
    requires |tail| == |leads - {k}|
    requires forall i, j :: 0 <= i < j < |tail| ==> tail[i].id_reg < tail[j].id_reg
    requires forall l :: l in tail <==> l.id_reg in leads - {k} && (leads - {k})[l.id_reg] == l
    ensures |[leads[k]] + tail| == |leads|
    ensures var r := [leads[k]] + tail;
            forall i, j :: 0 <= i < j < |r| ==> r[i].id_reg < r[j].id_reg
    ensures forall l :: l in [leads[k]] + tail <==> l.id_reg in leads && leads[l.id_reg] == l
  {
    var rest := leads - {k};
    assert leads.Keys == rest.Keys + {k};
    var r := [leads[k]] + tail;
    forall i, j | 0 <= i < j < |r|
      ensures r[i].id_reg < r[j].id_reg
    {
      assert r[j] == tail[j - 1] && r[j] in tail;
      if i > 0 {
        assert r[i] == tail[i - 1];
      }
    }
    forall l
      ensures l in r <==> l.id_reg in leads && leads[l.id_reg] == l
    {
      if l.id_reg in leads && leads[l.id_reg] == l && l.id_reg != k {
        assert l in tail;
      }
    }
  }

  /** `SELECT * FROM registros WHERE cel_reg = $1` answered with `rows[0] || {}`:
      `None` stands for the empty object. Always 200; with several matches any of
      them may come back, since the query does not order its rows. */
  ghost function FindByPhone(leads: map<int, Lead>, celular: string): (r: Reply<Option<Lead>>)
    ensures r.Ok?
    ensures r.value.None? <==> forall k :: k in leads ==> leads[k].fields.cel_reg != Some(celular)
    ensures r.value.Some? ==> r.value.value in leads.Values && r.value.value.fields.cel_reg == Some(celular)
  {
    if exists k :: k in leads && leads[k].fields.cel_reg == Some(celular) then
      var k :| k in leads && leads[k].fields.cel_reg == Some(celular);
      Ok(Some(leads[k]))
    else Ok(None)
  }

  /** `GET /:id`. */
  function GetLead(leads: map<int, Lead>, idParam: string): (r: Reply<Lead>)
    ensures r == Error(500, "Error al obtener registro") <==> IntegerInput(idParam).None?
    ensures r == Error(404, "Registro no encontrado") <==>
              IntegerInput(idParam).Some? && IntegerInput(idParam).value !in leads
    ensures r.Ok? <==> IntegerInput(idParam).Some? && IntegerInput(idParam).value in leads
    ensures r.Ok? ==> r.value == leads[IntegerInput(idParam).value]
  {
    match IntegerInput(idParam)
    case None => Error(500, "Error al obtener registro")
    case Some(id) =>
      if id in leads then Ok(leads[id]) else Error(404, "Registro no encontrado")
  }

  // ---------------------------------------------------------------------------
  // Changes

  /** `PUT /:id`: the answer, computed on the table before the statement. */
  function UpdateReply(leads: map<int, Lead>, idParam: string, body: LeadBody, now: int): (r: Reply<Lead>)
    ensures r == Error(500, "Error al actualizar registro") <==> IntegerInput(idParam).None?
    ensures r == Error(404, "Registro no encontrado para actualizar") <==>
              IntegerInput(idParam).Some? && IntegerInput(idParam).value !in leads
    ensures r.Ok? <==> IntegerInput(idParam).Some? && IntegerInput(idParam).value in leads
    ensures r.Ok? ==> r.value == Lead(IntegerInput(idParam).value, Columns(body), Some(now))
  {
    match IntegerInput(idParam)
    case None => Error(500, "Error al actualizar registro")
    case Some(id) =>
      if id in leads then Ok(Lead(id, Columns(body), Some(now)))
      else Error(404, "Registro no encontrado para actualizar")
  }

  /** `DELETE /:id`: the answer, computed on the table before the statement. */
  function DeleteReply(leads: map<int, Lead>, idParam: string): (r: Reply<Lead>)
    ensures r == Error(500, "Error al eliminar registro") <==> IntegerInput(idParam).None?
    ensures r == Error(404, "Registro no encontrado para eliminar") <==>
              IntegerInput(idParam).Some? && IntegerInput(idParam).value !in leads
    ensures r == NoContent <==> IntegerInput(idParam).Some? && IntegerInput(idParam).value in leads
    ensures r.Status() in {204, 404, 500}
  {
    match IntegerInput(idParam)
    case None => Error(500, "Error al eliminar registro")
    case Some(id) =>
      if id in leads then NoContent else Error(404, "Registro no encontrado para eliminar")
  }

  class LeadTable {
    var leads: map<int, Lead>
    /** The next value of the `id_reg` sequence. */
    var nextId: int

    ghost predicate Valid()
      reads this
    {
      && nextId >= 1
      && KeysMatch(leads)
      && forall k :: k in leads ==> 1 <= k < nextId
    }

    constructor()
      ensures Valid()
      ensures leads == map[] && nextId == 1
    {
      leads := map[];
      nextId := 1;
    }

    /** `POST /`: stores the eight fields under a fresh id, with no validation,
        and answers 201 with the stored row. `updated_at` is not set. */
    method Create(body: LeadBody) returns (reply: Reply<Lead>)
      requires Valid()
      modifies this
      ensures Valid()
      ensures old(nextId) !in old(leads)
      ensures reply == Created(Lead(old(nextId), Columns(body), None))
      ensures leads == old(leads)[old(nextId) := reply.value]
      ensures nextId == old(nextId) + 1
    {
      var lead := Lead(nextId, Columns(body), None);
      leads := leads[nextId := lead];
      nextId := nextId + 1;
      reply := Created(lead);
    }

    /** `PUT /:id`: replaces all eight fields of that lead and stamps `updated_at`;
        every other lead stays as it was. */
    method Update(idParam: string, body: LeadBody, now: int) returns (reply: Reply<Lead>)
      requires Valid()
      modifies this
      ensures Valid()
      ensures reply == UpdateReply(old(leads), idParam, body, now)
      ensures reply.Ok? ==> leads == old(leads)[reply.value.id_reg := reply.value]
      ensures !reply.Ok? ==> leads == old(leads)
      ensures nextId == old(nextId)
    {
      reply := UpdateReply(leads, idParam, body, now);
      if reply.Ok? {
        leads := leads[reply.value.id_reg := reply.value];
      }
    }

    /** `DELETE /:id`: removes exactly that lead and answers 204. */
    method Delete(idParam: string) returns (reply: Reply<Lead>)
      requires Valid()
      modifies this
      ensures Valid()
      ensures reply == DeleteReply(old(leads), idParam)
      ensures reply == NoContent ==> leads == old(leads) - {IntegerInput(idParam).value}
      ensures reply != NoContent ==> leads == old(leads)
      ensures nextId == old(nextId)
    {
      reply := DeleteReply(leads, idParam);
      if reply == NoContent {
        leads := leads - {IntegerInput(idParam).value};
      }
    }
  }

  // ---------------------------------------------------------------------------
  // How the operations fit together

  /** Reading a lead back after creating it gives the created row. */
  lemma GetAfterCreate(leads: map<int, Lead>, id: int, body: LeadBody)
    requires Int32Min <= id <= Int32Max
    ensures GetLead(leads[id := Lead(id, Columns(body), None)], IntToString(id))
            == Ok(Lead(id, Columns(body), None))
  {
    IntegerParamOfNum(id);
  }

  /** After a successful update, reading the lead gives the updated row. */
  lemma GetAfterUpdate(leads: map<int, Lead>, idParam: string, body: LeadBody, now: int)
    requires UpdateReply(leads, idParam, body, now).Ok?
    ensures var u := UpdateReply(leads, idParam, body, now).value;
            GetLead(leads[u.id_reg := u], idParam) == Ok(u)
  {
  }

  /** After a delete that answered 204 the lead is gone: reading it answers 404,
      and deleting it again answers 404. */
  lemma GetAfterDelete(leads: map<int, Lead>, idParam: string)
    requires DeleteReply(leads, idParam) == NoContent
    ensures var rest := leads - {IntegerInput(idParam).value};
            && GetLead(rest, idParam) == Error(404, "Registro no encontrado")
            && DeleteReply(rest, idParam) == Error(404, "Registro no encontrado para eliminar")
  {
  }

  /** Update, get and delete agree on whether an id exists. */
  lemma NotFoundAgrees(leads: map<int, Lead>, idParam: string, body: LeadBody, now: int)
    ensures GetLead(leads, idParam).Status() == 404
            <==> UpdateReply(leads, idParam, body, now).Status() == 404
    ensures GetLead(leads, idParam).Status() == 404
            <==> DeleteReply(leads, idParam).Status() == 404
  {
  }
}
