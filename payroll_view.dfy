/**
 * The teachers screen (frontend/src/Nomina.js): the list of teachers ten per
 * page, a form bound to one teacher (its id in `editingId`, null for a new
 * one), a search by teacher id that loads a teacher into the form, and the
 * spreadsheet export.
 *
 * Requests go through axios, which rejects every answer whose status is not
 * 2xx; an answer is therefore a success exactly when it is an ok response.
 * Each handler is one atomic step that receives the outcome of its requests
 * as parameters.
 */
module PayrollView {
  import opened Js
  import opened Http
  import opened Pagination

  const ApiDocentes: string := "http://localhost:5000/api/docentes"
  const ApiPagos: string := "http://localhost:5000/api/pagos"

  /** The names of the form's fields. */
  const FieldNames: set<string> := {"nombre_doc", "apellido_doc", "asignatura_doc", "salon_doc", "pago_doc", "email_doc"}

  /** The empty form: a cleared "paid" box and empty texts. */
  const InitialForm: JsObject :=
    map["nombre_doc" := Str(""), "apellido_doc" := Str(""), "asignatura_doc" := Str(""),
        "salon_doc" := Str(""), "pago_doc" := Bool(false), "email_doc" := Str("")]

  /** An axios call that resolved: an ok response. */
  predicate Succeeded<T>(answer: Fetched<T>)
  {
    answer.Response? && answer.ok
  }

  /** `handleChange`: the input named `name` writes its `checked` flag when it
      is a checkbox and its text otherwise; every other field keeps its value. */
  function Changed(form: JsObject, name: string, inputType: string, value: string, checked: bool): (r: JsObject)
    ensures Prop(r, name) == (if inputType == "checkbox" then Bool(checked) else Str(value))
    ensures forall k :: k != name ==> Prop(r, k) == Prop(form, k)
    ensures r.Keys == form.Keys + {name}
  {
    form[name := if inputType == "checkbox" then Bool(checked) else Str(value)]
  }

  /** The form filled from a loaded teacher: its six fields, as sent. */
  function FormFrom(d: JsObject): (r: JsObject)
    ensures r.Keys == FieldNames
    ensures forall k :: k in FieldNames ==> Prop(r, k) == Prop(d, k)
  {
    map["nombre_doc" := Prop(d, "nombre_doc"), "apellido_doc" := Prop(d, "apellido_doc"),
        "asignatura_doc" := Prop(d, "asignatura_doc"), "salon_doc" := Prop(d, "salon_doc"),
        "pago_doc" := Prop(d, "pago_doc"), "email_doc" := Prop(d, "email_doc")]
  }

  /** The request `handleSubmit` sends: `PUT` to the edited teacher when there
      is one, `POST` to the collection otherwise; the body is the whole form. */
  function SubmitRequest(editingId: JsValue, form: JsObject): (r: Request)
    ensures r.Put? <==> Truthy(editingId)
    ensures r.Put? ==> r == Put(ApiDocentes + "/" + ToJsString(editingId), form)
    ensures r.Post? ==> r == Post(ApiDocentes, form)
  {
    if Truthy(editingId) then Put(ApiDocentes + "/" + ToJsString(editingId), form) else Post(ApiDocentes, form)
  }

  // ---------------------------------------------------------------------------
  // Export and table

  /** `d.pago_doc ? "Sí" : "No"`, the spreadsheet's "paid" column. */
  function PagoAlDia(d: JsObject): string
  {
    if Truthy(Prop(d, "pago_doc")) then "Sí" else "No"
  }

  /** `d.pago_doc ? '✓' : '✗'`, the table's "paid" column. */
  function PagoMark(d: JsObject): string
  {
    if Truthy(Prop(d, "pago_doc")) then "✓" else "✗"
  }

  /** The spreadsheet and the table agree on who is paid up: "Sí" exactly when
      the table shows a tick, and exactly when `pago_doc` is truthy. */
  lemma PaidColumnsAgree(d: JsObject)
    ensures PagoAlDia(d) == "Sí" <==> Truthy(Prop(d, "pago_doc"))
    ensures PagoAlDia(d) == "Sí" <==> PagoMark(d) == "✓"
    ensures PagoAlDia(d) in {"Sí", "No"} && PagoMark(d) in {"✓", "✗"}
  {
  }

  datatype ExportRow = ExportRow(id: JsValue, nombre: JsValue, apellido: JsValue, asignatura: JsValue,
                                 salon: JsValue, pago_al_dia: string, email: JsValue)

  function RowOf(d: JsObject): ExportRow
  {
    ExportRow(Prop(d, "id_docentes"), Prop(d, "nombre_doc"), Prop(d, "apellido_doc"), Prop(d, "asignatura_doc"),
              Prop(d, "salon_doc"), PagoAlDia(d), Prop(d, "email_doc"))
  }

  /** The spreadsheet rows: one per teacher, in order. */
  function ExportRows(profesores: seq<JsObject>): (r: seq<ExportRow>)
    ensures |r| == |profesores|
    ensures forall i :: 0 <= i < |profesores| ==> r[i] == RowOf(profesores[i])
  {
    if profesores == [] then [] else [RowOf(profesores[0])] + ExportRows(profesores[1..])
  }

  /** The number of spreadsheet rows marked "Sí" is the number of teachers whose
      `pago_doc` is truthy. */
  function PaidCount(profesores: seq<JsObject>): nat
  {
    if profesores == [] then 0 else (if Truthy(Prop(profesores[0], "pago_doc")) then 1 else 0) + PaidCount(profesores[1..])
  }

  function SiCount(rows: seq<ExportRow>): nat
  {
    if rows == [] then 0 else (if rows[0].pago_al_dia == "Sí" then 1 else 0) + SiCount(rows[1..])
  }

  lemma {:induction false} ExportCountsPaid(profesores: seq<JsObject>)
    ensures SiCount(ExportRows(profesores)) == PaidCount(profesores)
  {
    if profesores != [] {
      ExportCountsPaid(profesores[1..]);
      assert ExportRows(profesores)[1..] == ExportRows(profesores[1..]);
      PaidColumnsAgree(profesores[0]);
    }
  }

  // ---------------------------------------------------------------------------
  // The screen

  class PayrollScreen {
    var profesores: seq<JsObject>
    var pagos: seq<JsObject>
    var searchId: string
    var editingId: JsValue
    var form: JsObject
    var currentPage: int

    /** The form always has its six fields, so every body `handleSubmit`
        hands to axios has the six keys (a key whose value is `Undefined`
        is dropped when the body is serialised). */
    ghost predicate Valid()
      reads this
    {
      FieldNames <= form.Keys
    }

    /** The teachers on the current page: at most ten, from `(currentPage - 1) * 10` on. */
    function DocentesPagina(): (r: seq<JsObject>)
      reads this
      ensures currentPage >= 1 ==> |r| <= PageSize
      ensures currentPage >= 1 ==> r == profesores[Min((currentPage - 1) * PageSize, |profesores|)..Min(currentPage * PageSize, |profesores|)]
    {
      if currentPage >= 1 then PageWindow(profesores, currentPage); PageOf(profesores, currentPage)
      else PageOf(profesores, currentPage)
    }

    constructor()
      ensures Valid()
      ensures profesores == [] && pagos == [] && searchId == "" && editingId == Null
      ensures form == InitialForm && currentPage == 1
    {
      profesores := [];
      pagos := [];
      searchId := "";
      editingId := Null;
      form := InitialForm;
      currentPage := 1;
    }

    /** `fetchData`: both lists are replaced only when both requests succeed. */
    method FetchData(docentes: Fetched<seq<JsObject>>, pagosAnswer: Fetched<seq<JsObject>>)
      returns (requests: seq<Request>)
      requires Valid()
      modifies this
      ensures Valid()
      ensures requests == [Get(ApiDocentes), Get(ApiPagos)]
      ensures Succeeded(docentes) && Succeeded(pagosAnswer) ==> profesores == docentes.json && pagos == pagosAnswer.json
      ensures !(Succeeded(docentes) && Succeeded(pagosAnswer)) ==> profesores == old(profesores) && pagos == old(pagos)
      ensures searchId == old(searchId) && editingId == old(editingId) && form == old(form)
      ensures currentPage == old(currentPage)
    {
      requests := [Get(ApiDocentes), Get(ApiPagos)];
      if Succeeded(docentes) && Succeeded(pagosAnswer) {
        profesores := docentes.json;
        pagos := pagosAnswer.json;
      }
    }

    /** `handleChange` on the input named `name`. */
    method HandleChange(name: string, inputType: string, value: string, checked: bool)
      requires Valid()
      modifies this
      ensures Valid()
      ensures form == Changed(old(form), name, inputType, value, checked)
      ensures profesores == old(profesores) && pagos == old(pagos) && searchId == old(searchId)
      ensures editingId == old(editingId) && currentPage == old(currentPage)
    {
      form := Changed(form, name, inputType, value, checked);
    }

    /** `handleSubmit`: sends the form; after a success reloads the lists and
        resets the form, after a failure changes nothing. */
    method HandleSubmit(save: Fetched<Json>, docentes: Fetched<seq<JsObject>>, pagosAnswer: Fetched<seq<JsObject>>)
      returns (requests: seq<Request>)
      requires Valid()
      modifies this
      ensures Valid()
      ensures var sent := SubmitRequest(old(editingId), old(form));
              requests == if Succeeded(save) then [sent, Get(ApiDocentes), Get(ApiPagos)] else [sent]
      ensures (requests[0].Post? || requests[0].Put?) && FieldNames <= requests[0].body.Keys
      ensures Succeeded(save) ==>
                && (Succeeded(docentes) && Succeeded(pagosAnswer) ==> profesores == docentes.json && pagos == pagosAnswer.json)
                && (!(Succeeded(docentes) && Succeeded(pagosAnswer)) ==> profesores == old(profesores) && pagos == old(pagos))
                && form == InitialForm && editingId == Null && searchId == ""
      ensures !Succeeded(save) ==>
                profesores == old(profesores) && pagos == old(pagos) && form == old(form)
                && editingId == old(editingId) && searchId == old(searchId)
      ensures currentPage == old(currentPage)
    {
      requests := [SubmitRequest(editingId, form)];
      if !Succeeded(save) {
        return;
      }
      var loading := FetchData(docentes, pagosAnswer);
      requests := requests + loading;
      ResetForm();
    }

    /** `handleDelete(id)`: after the user confirms, deletes; after a success
        reloads the lists and resets the form, after a failure changes nothing. */
    method HandleDelete(id: JsValue, confirmed: bool, deletion: Fetched<Json>,
                        docentes: Fetched<seq<JsObject>>, pagosAnswer: Fetched<seq<JsObject>>)
      returns (requests: seq<Request>)
      requires Valid()
      modifies this
      ensures Valid()
      ensures !confirmed ==> requests == []
      ensures confirmed ==>
                var sent := Delete(ApiDocentes + "/" + ToJsString(id));
                requests == if Succeeded(deletion) then [sent, Get(ApiDocentes), Get(ApiPagos)] else [sent]
      ensures confirmed && Succeeded(deletion) ==>
                && (Succeeded(docentes) && Succeeded(pagosAnswer) ==> profesores == docentes.json && pagos == pagosAnswer.json)
                && (!(Succeeded(docentes) && Succeeded(pagosAnswer)) ==> profesores == old(profesores) && pagos == old(pagos))
                && form == InitialForm && editingId == Null && searchId == ""
      ensures !(confirmed && Succeeded(deletion)) ==>
                profesores == old(profesores) && pagos == old(pagos) && form == old(form)
                && editingId == old(editingId) && searchId == old(searchId)
      ensures currentPage == old(currentPage)
    {
      if !confirmed {
        return [];
      }
      requests := [Delete(ApiDocentes + "/" + ToJsString(id))];
      if !Succeeded(deletion) {
        return;
      }
      var loading := FetchData(docentes, pagosAnswer);
      requests := requests + loading;
      ResetForm();
    }

    /** `handleSearch`: nothing at all on a blank id; otherwise the teacher is
        requested by the id as typed, and a success loads its id and six fields
        into the form, while a failure resets the form. */
    method HandleSearch(answer: Fetched<JsObject>) returns (requests: seq<Request>)
      requires Valid()
      modifies this
      ensures Valid()
      ensures AllWhitespace(old(searchId)) ==>
                requests == [] && form == old(form) && editingId == old(editingId) && searchId == old(searchId)
      ensures !AllWhitespace(old(searchId)) ==> requests == [Get(ApiDocentes + "/" + old(searchId))]
      ensures !AllWhitespace(old(searchId)) && Succeeded(answer) ==>
                editingId == Prop(answer.json, "id_docentes") && form == FormFrom(answer.json)
                && searchId == old(searchId)
      ensures !AllWhitespace(old(searchId)) && !Succeeded(answer) ==>
                form == InitialForm && editingId == Null && searchId == ""
      ensures profesores == old(profesores) && pagos == old(pagos) && currentPage == old(currentPage)
    {
      // `!searchId.trim()`, which holds exactly on white space (Js.TrimEmptyIffBlank).
      if AllWhitespace(searchId) {
        return [];
      }
      requests := [Get(ApiDocentes + "/" + searchId)];
      if !Succeeded(answer) {
        ResetForm();
        return;
      }
      var loaded := FormFrom(answer.json);
      assert FieldNames <= loaded.Keys;
      editingId := Prop(answer.json, "id_docentes");
      form := loaded;
    }

    /** `resetForm`: the initial form, no edited teacher and an empty search box. */
    method ResetForm()
      modifies this
      ensures Valid()
      ensures form == InitialForm && editingId == Null && searchId == ""
      ensures profesores == old(profesores) && pagos == old(pagos) && currentPage == old(currentPage)
    {
      editingId := Null;
      form := InitialForm;
      searchId := "";
    }

    /** Typing in the search box. */
    method ChangeSearchId(text: string)
      modifies this
      ensures searchId == text
      ensures profesores == old(profesores) && pagos == old(pagos) && editingId == old(editingId)
      ensures form == old(form) && currentPage == old(currentPage)
    {
      searchId := text;
    }

    /** "Previous": `Math.max(p - 1, 1)`. */
    method PrevPage()
      modifies this
      ensures currentPage == PrevAtLeastOne(old(currentPage))
      ensures profesores == old(profesores) && pagos == old(pagos) && searchId == old(searchId)
      ensures editingId == old(editingId) && form == old(form)
    {
      currentPage := PrevAtLeastOne(currentPage);
    }

    /** "Next": `Math.min(p + 1, totalPaginas)`. */
    method NextPage()
      modifies this
      ensures currentPage == NextAtMostTotal(old(currentPage), TotalPages(|profesores|))
      ensures profesores == old(profesores) && pagos == old(pagos) && searchId == old(searchId)
      ensures editingId == old(editingId) && form == old(form)
    {
      currentPage := NextAtMostTotal(currentPage, TotalPages(|profesores|));
    }
  }

  /** The server answers an unknown teacher id with `{}` and status 200, which
      axios takes as a success: the form is then filled with `undefined`s and
      no teacher is being edited, so the next submit creates a teacher. */
  lemma UnknownIdThenSubmitCreates(form: JsObject)
    ensures !Truthy(Prop(map[], "id_docentes"))
    ensures forall k :: k in FieldNames ==> Prop(FormFrom(map[]), k) == Undefined
    ensures SubmitRequest(Prop(map[], "id_docentes"), form) == Post(ApiDocentes, form)
  {
  }
}
