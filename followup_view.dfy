/**
 * The follow-up screen of the dashboard (frontend/src/seguimientos.js): a
 * phone search that selects a lead and loads its follow-ups, a listing of
 * every follow-up, a table of every lead, adding a follow-up to the selected
 * lead and deleting one from the list.
 *
 * The screen shows one of three views: the selected lead with its follow-ups,
 * the lead table, or all follow-ups, ten per page. Each handler is one atomic
 * step that receives the outcome of its `fetch` calls as parameters and
 * returns the requests it sent.
 */
module FollowUpView {
  import opened Js
  import opened Http
  import opened Seqs
  import opened Pagination
  import FollowUpLog

  const ApiSeguimientos: string := "http://localhost:5000/api/seguimientos"
  const ApiRegistros: string := "http://localhost:5000/api/registros"

  /** The motives offered in the form. */
  const MotivosFijos: seq<string> :=
    ["1RA LLAMADA", "2DA LLAMADA", "3RA LLAMADA", "ENVIO DE WHATSAPP", "CANCELACIÓN DE REGISTRO"]

  /** The statuses offered in the form. */
  const EstadosFijos: seq<string> := ["EN SEGUIMIENTO", "CERRADO", "PENDIENTE", "FINALIZADO"]

  /** The form offers exactly the values the server accepts, in the same order. */
  lemma FormOffersServerValues()
    ensures MotivosFijos == FollowUpLog.MotivosValidos
    ensures EstadosFijos == FollowUpLog.EstadosValidos
  {
  }

  /** The new follow-up form. */
  datatype NewForm = NewForm(fecha: string, hora: string, motivo: string, notas: string, estado: string)

  const InitialForm: NewForm := NewForm("", "", "", "", "EN SEGUIMIENTO")

  /** `{ ...nuevo, id_reg, id_usuario: 1 }`. */
  function Payload(nuevo: NewForm, idReg: JsValue): JsObject
  {
    map["fecha" := Str(nuevo.fecha), "hora" := Str(nuevo.hora), "motivo" := Str(nuevo.motivo),
        "notas" := Str(nuevo.notas), "estado" := Str(nuevo.estado),
        "id_reg" := idReg, "id_usuario" := Num(1)]
  }

  /** The body the server reads from a JSON object. */
  function ServerBody(o: JsObject): FollowUpLog.Body
  {
    FollowUpLog.Body(Prop(o, "id_reg"), Prop(o, "fecha"), Prop(o, "hora"), Prop(o, "motivo"),
                     Prop(o, "notas"), Prop(o, "estado"), Prop(o, "id_usuario"))
  }

  /** A form with a date, a time and a motive and status picked from the lists
      passes all three of the server's checks. */
  lemma FilledFormPassesChecks(nuevo: NewForm, idReg: JsValue)
    requires Truthy(idReg)
    requires nuevo.fecha != "" && nuevo.hora != ""
    requires nuevo.motivo in MotivosFijos && nuevo.estado in EstadosFijos
    ensures FollowUpLog.Validate(ServerBody(Payload(nuevo, idReg))).Success?
  {
  }

  /** The form as it starts has no motive: sent as it is, the server answers
      that required fields are missing. */
  lemma InitialFormIsIncomplete(idReg: JsValue, id: int)
    ensures FollowUpLog.CreateReply(ServerBody(Payload(InitialForm, idReg)), id)
            == Error(400, "Faltan campos obligatorios")
  {
    var b := ServerBody(Payload(InitialForm, idReg));
    assert b.fecha == Str("");
    assert FollowUpLog.Validate(b) == Failure(FollowUpLog.MissingFields);
  }

  /** `!data || !data.id_reg` fails: the lookup found a lead. */
  predicate Found(data: Json)
  {
    data.JObject? && Truthy(Prop(data.o, "id_reg"))
  }

  /** The list without the entries whose `id_seg` is `idSeg`. */
  function WithoutSeg(list: seq<JsObject>, idSeg: JsValue): (r: seq<JsObject>)
    ensures Subsequence(r, list)
    ensures forall x :: multiset(r)[x] == if Prop(x, "id_seg") != idSeg then multiset(list)[x] else 0
  {
    Filter(list, (s: JsObject) => Prop(s, "id_seg") != idSeg)
  }

  /** Nothing left in the list has the deleted id, and every other entry stays. */
  lemma WithoutSegRemovesExactly(list: seq<JsObject>, idSeg: JsValue, x: JsObject)
    ensures x in WithoutSeg(list, idSeg) <==> x in list && Prop(x, "id_seg") != idSeg
  {
    FilterMembership(list, (s: JsObject) => Prop(s, "id_seg") != idSeg, x);
  }

  class FollowUpScreen {
    var busqueda: string
    var registro: Option<JsObject>
    var seguimientos: seq<JsObject>
    var nuevo: NewForm
    var pagina: int
    var registrosTodos: seq<JsObject>
    var mostrarRegistros: bool
    var paginaReg: int

    /** A selected lead and the lead table never show together. */
    ghost predicate Valid()
      reads this
    {
      !(registro.Some? && mostrarRegistros)
    }

    predicate LeadView()
      reads this
    {
      registro.Some?
    }

    predicate LeadTableView()
      reads this
    {
      mostrarRegistros
    }

    predicate AllFollowUpsView()
      reads this
    {
      registro.None? && !mostrarRegistros
    }

    /** Exactly one of the three views shows. */
    lemma OneViewShows()
      requires Valid()
      ensures (if LeadView() then 1 else 0) + (if LeadTableView() then 1 else 0)
              + (if AllFollowUpsView() then 1 else 0) == 1
    {
    }

    /** The follow-ups on screen: the whole list in the lead view, one page of it
        in the all-follow-ups view, none in the lead table. */
    function ShownFollowUps(): (r: seq<JsObject>)
      reads this
      ensures LeadView() ==> r == seguimientos
      ensures AllFollowUpsView() && pagina >= 1 ==> |r| <= PageSize
      ensures AllFollowUpsView() ==> r == PageOf(seguimientos, pagina)
      ensures LeadTableView() && !LeadView() ==> r == []
    {
      if LeadView() then seguimientos
      else if AllFollowUpsView() then
        if pagina >= 1 then PageWindow(seguimientos, pagina); PageOf(seguimientos, pagina)
        else PageOf(seguimientos, pagina)
      else []
    }

    /** The leads on screen: one page of the lead table, when it shows. */
    function ShownLeads(): (r: seq<JsObject>)
      reads this
      ensures LeadTableView() && paginaReg >= 1 ==> |r| <= PageSize
      ensures LeadTableView() ==> r == PageOf(registrosTodos, paginaReg)
      ensures !LeadTableView() ==> r == []
    {
      if LeadTableView() then
        if paginaReg >= 1 then PageWindow(registrosTodos, paginaReg); PageOf(registrosTodos, paginaReg)
        else PageOf(registrosTodos, paginaReg)
      else []
    }

    constructor()
      ensures Valid()
      ensures busqueda == "" && registro == None && seguimientos == [] && nuevo == InitialForm
      ensures pagina == 1 && registrosTodos == [] && !mostrarRegistros && paginaReg == 1
    {
      busqueda := "";
      registro := None;
      seguimientos := [];
      nuevo := InitialForm;
      pagina := 1;
      registrosTodos := [];
      mostrarRegistros := false;
      paginaReg := 1;
    }

    /** `buscarRegistro`: asks for the lead with the typed phone number. A lead
        is found when the answer has a truthy `id_reg`; it is then selected and
        its follow-ups are fetched. Otherwise the selection and the list are
        cleared and no second request is sent. */
    method BuscarRegistro(lookup: Fetched<Json>, listing: Fetched<Json>) returns (requests: seq<Request>)
      requires Valid()
      modifies this
      ensures Valid()
      ensures |requests| >= 1 && requests[0] == Get(ApiRegistros + "/cel/" + old(busqueda))
      ensures lookup.NetworkError? ==>
                requests == [Get(ApiRegistros + "/cel/" + old(busqueda))]
                && registro == old(registro) && seguimientos == old(seguimientos)
                && mostrarRegistros == old(mostrarRegistros)
      ensures lookup.Response? && !Found(lookup.json) ==>
                requests == [Get(ApiRegistros + "/cel/" + old(busqueda))]
                && registro == None && seguimientos == [] && mostrarRegistros == old(mostrarRegistros)
      ensures lookup.Response? && Found(lookup.json) ==>
                && requests == [Get(ApiRegistros + "/cel/" + old(busqueda)),
                                Get(ApiSeguimientos + "/registro/" + ToJsString(Prop(lookup.json.o, "id_reg")))]
                && registro == Some(lookup.json.o) && !mostrarRegistros
                && seguimientos == if listing.Response? then ArrayOrEmpty(listing.json) else old(seguimientos)
      ensures busqueda == old(busqueda) && nuevo == old(nuevo) && pagina == old(pagina)
      ensures registrosTodos == old(registrosTodos) && paginaReg == old(paginaReg)
    {
      requests := [Get(ApiRegistros + "/cel/" + busqueda)];
      if lookup.NetworkError? {
        return;
      }
      var data := lookup.json;
      if !Found(data) {
        registro := None;
        seguimientos := [];
        return;
      }
      registro := Some(data.o);
      mostrarRegistros := false;
      requests := requests + [Get(ApiSeguimientos + "/registro/" + ToJsString(Prop(data.o, "id_reg")))];
      if listing.Response? {
        seguimientos := ArrayOrEmpty(listing.json);
      }
    }

    /** `mostrarTodos`: loads every follow-up joined with its lead and returns to
        the all-follow-ups view. */
    method MostrarTodos(response: Fetched<Json>) returns (requests: seq<Request>)
      requires Valid()
      modifies this
      ensures Valid()
      ensures requests == [Get(ApiSeguimientos + "/joinRegistros")]
      ensures response.Response? ==>
                seguimientos == ArrayOrEmpty(response.json) && registro == None && !mostrarRegistros
      ensures response.NetworkError? ==>
                seguimientos == old(seguimientos) && registro == old(registro) && mostrarRegistros == old(mostrarRegistros)
      ensures busqueda == old(busqueda) && nuevo == old(nuevo) && pagina == old(pagina)
      ensures registrosTodos == old(registrosTodos) && paginaReg == old(paginaReg)
    {
      requests := [Get(ApiSeguimientos + "/joinRegistros")];
      if response.Response? {
        seguimientos := ArrayOrEmpty(response.json);
        registro := None;
        mostrarRegistros := false;
      }
    }

    /** `mostrarTablaRegistros`: loads every lead and shows the lead table. */
    method MostrarTablaRegistros(response: Fetched<Json>) returns (requests: seq<Request>)
      requires Valid()
      modifies this
      ensures Valid()
      ensures requests == [Get(ApiRegistros)]
      ensures response.Response? ==>
                registrosTodos == ArrayOrEmpty(response.json) && mostrarRegistros && registro == None
      ensures response.NetworkError? ==>
                registrosTodos == old(registrosTodos) && registro == old(registro) && mostrarRegistros == old(mostrarRegistros)
      ensures busqueda == old(busqueda) && nuevo == old(nuevo) && pagina == old(pagina)
      ensures seguimientos == old(seguimientos) && paginaReg == old(paginaReg)
    {
      requests := [Get(ApiRegistros)];
      if response.Response? {
        registrosTodos := ArrayOrEmpty(response.json);
        mostrarRegistros := true;
        registro := None;
      }
    }

    /** `eliminarSeguimiento`: after the user confirms, asks the server to delete
        the follow-up and, only on an ok answer, drops every entry with that id
        from the list, keeping the rest in order. */
    method EliminarSeguimiento(idSeg: JsValue, confirmed: bool, response: Fetched<Json>)
      returns (requests: seq<Request>)
      requires Valid()
      modifies this
      ensures Valid()
      ensures !confirmed ==> requests == []
      ensures confirmed ==> requests == [Delete(ApiSeguimientos + "/" + ToJsString(idSeg))]
      ensures seguimientos ==
                if confirmed && response.Response? && response.ok then WithoutSeg(old(seguimientos), idSeg)
                else old(seguimientos)
      ensures busqueda == old(busqueda) && registro == old(registro) && nuevo == old(nuevo)
      ensures pagina == old(pagina) && registrosTodos == old(registrosTodos)
      ensures mostrarRegistros == old(mostrarRegistros) && paginaReg == old(paginaReg)
    {
      if !confirmed {
        return [];
      }
      requests := [Delete(ApiSeguimientos + "/" + ToJsString(idSeg))];
      if response.Response? && response.ok {
        seguimientos := WithoutSeg(seguimientos, idSeg);
      }
    }

    /** `agregarSeguimiento`: without a selected lead nothing is sent. Otherwise
        the form is posted with the lead's `id_reg` and `id_usuario` 1; after an
        ok answer the lead's follow-ups are fetched again and the form is reset.
        After a failure the form is kept. */
    method AgregarSeguimiento(post: Fetched<Json>, listing: Fetched<Json>) returns (requests: seq<Request>)
      requires Valid()
      modifies this
      ensures Valid()
      ensures old(registro).None? || !Truthy(Prop(old(registro).value, "id_reg")) ==>
                requests == [] && seguimientos == old(seguimientos) && nuevo == old(nuevo)
      ensures old(registro).Some? && Truthy(Prop(old(registro).value, "id_reg")) ==>
                var idReg := Prop(old(registro).value, "id_reg");
                var sent := Post(ApiSeguimientos, Payload(old(nuevo), idReg));
                if post.Response? && post.ok then
                  && requests == [sent, Get(ApiSeguimientos + "/registro/" + ToJsString(idReg))]
                  && seguimientos == (if listing.Response? then ArrayOrEmpty(listing.json) else old(seguimientos))
                  && nuevo == (if listing.Response? then InitialForm else old(nuevo))
                else
                  requests == [sent] && seguimientos == old(seguimientos) && nuevo == old(nuevo)
      ensures busqueda == old(busqueda) && registro == old(registro) && pagina == old(pagina)
      ensures registrosTodos == old(registrosTodos) && mostrarRegistros == old(mostrarRegistros)
      ensures paginaReg == old(paginaReg)
    {
      if registro.None? || !Truthy(Prop(registro.value, "id_reg")) {
        return [];
      }
      var idReg := Prop(registro.value, "id_reg");
      requests := [Post(ApiSeguimientos, Payload(nuevo, idReg))];
      if !(post.Response? && post.ok) {
        return;
      }
      requests := requests + [Get(ApiSeguimientos + "/registro/" + ToJsString(idReg))];
      if listing.Response? {
        seguimientos := ArrayOrEmpty(listing.json);
        nuevo := InitialForm;
      }
    }

    /** "Previous" on the all-follow-ups list. */
    method PrevPage()
      modifies this
      ensures pagina == PrevAtLeastOne(old(pagina))
      ensures busqueda == old(busqueda) && registro == old(registro) && seguimientos == old(seguimientos)
      ensures nuevo == old(nuevo) && registrosTodos == old(registrosTodos)
      ensures mostrarRegistros == old(mostrarRegistros) && paginaReg == old(paginaReg)
    {
      pagina := PrevAtLeastOne(pagina);
    }

    /** "Next" on the all-follow-ups list. */
    method NextPage()
      modifies this
      ensures pagina == NextWhileMore(old(pagina), |seguimientos|)
      ensures busqueda == old(busqueda) && registro == old(registro) && seguimientos == old(seguimientos)
      ensures nuevo == old(nuevo) && registrosTodos == old(registrosTodos)
      ensures mostrarRegistros == old(mostrarRegistros) && paginaReg == old(paginaReg)
    {
      pagina := NextWhileMore(pagina, |seguimientos|);
    }

    /** "Previous" on the lead table. */
    method PrevPageReg()
      modifies this
      ensures paginaReg == PrevAtLeastOne(old(paginaReg))
      ensures busqueda == old(busqueda) && registro == old(registro) && seguimientos == old(seguimientos)
      ensures nuevo == old(nuevo) && pagina == old(pagina) && registrosTodos == old(registrosTodos)
      ensures mostrarRegistros == old(mostrarRegistros)
    {
      paginaReg := PrevAtLeastOne(paginaReg);
    }

    /** "Next" on the lead table; the button is disabled once
        `paginaReg * 10 >= registrosTodos.length`, exactly where the updater
        would stay put. */
    method NextPageReg()
      modifies this
      ensures paginaReg == NextWhileMore(old(paginaReg), |registrosTodos|)
      ensures old(paginaReg) * PageSize >= |registrosTodos| <==> paginaReg == old(paginaReg)
      ensures busqueda == old(busqueda) && registro == old(registro) && seguimientos == old(seguimientos)
      ensures nuevo == old(nuevo) && pagina == old(pagina) && registrosTodos == old(registrosTodos)
      ensures mostrarRegistros == old(mostrarRegistros)
    {
      paginaReg := NextWhileMore(paginaReg, |registrosTodos|);
    }
  }
}
