/**
 * The attendance screen (frontend/src/Asistencia.js): the list of attendance
 * records narrowed by an optional date prefix and an optional student id,
 * paginated ten per page, and a form that edits a record in place or creates
 * a new one.
 *
 * Records are the JSON objects the server sends. Each handler is one atomic
 * step that receives the outcome of its requests as parameters.
 */
module AttendanceView {
  import opened Js
  import opened Http
  import opened Seqs
  import opened Pagination

  const ApiAsistencias: string := "http://localhost:5000/api/asistencia"

  /** The form: `id_asistencia` is null for a new record. */
  datatype AttendanceForm = AttendanceForm(id_asistencia: JsValue, id_estudiante: JsValue, fecha: JsValue, estado: JsValue)

  const InitialForm: AttendanceForm := AttendanceForm(Null, Str(""), Str(""), Str("Presente"))

  /** `a.fecha.startsWith(date)`. */
  predicate DateMatches(a: JsObject, date: string)
  {
    Prop(a, "fecha").Str? && date <= Prop(a, "fecha").s
  }

  /** `a.id_estudiante === Number(studentId)`; NaN equals nothing. */
  predicate StudentMatches(a: JsObject, studentId: string)
  {
    match StringToNumber(studentId)
    case None => false
    case Some(n) => Prop(a, "id_estudiante") == Num(n)
  }

  /** A record passes both active filters; an empty filter is not applied. */
  predicate Passes(a: JsObject, date: string, studentId: string)
  {
    (date != "" ==> DateMatches(a, date)) && (studentId != "" ==> StudentMatches(a, studentId))
  }

  /** The records that pass both active filters, every occurrence, in their order. */
  function FilterAttendance(s: seq<JsObject>, date: string, studentId: string): (r: seq<JsObject>)
    ensures Subsequence(r, s)
    ensures forall x :: multiset(r)[x] == if Passes(x, date, studentId) then multiset(s)[x] else 0
  {
    Filter(s, PassTest(date, studentId))
  }

  function PassTest(date: string, studentId: string): JsObject -> bool
  {
    (a: JsObject) => Passes(a, date, studentId)
  }

  function DateTest(date: string): JsObject -> bool
  {
    (a: JsObject) => DateMatches(a, date)
  }

  function StudentTest(studentId: string): JsObject -> bool
  {
    (a: JsObject) => StudentMatches(a, studentId)
  }

  /** `tmp.filter(a => a.fecha.startsWith(date))`. */
  function ByDate(s: seq<JsObject>, date: string): seq<JsObject>
  {
    Filter(s, DateTest(date))
  }

  /** `tmp.filter(a => a.id_estudiante === Number(studentId))`. */
  function ByStudent(s: seq<JsObject>, studentId: string): seq<JsObject>
  {
    Filter(s, StudentTest(studentId))
  }

  /** The filters the handler applies one after the other. */
  function FiltersInTurn(s: seq<JsObject>, date: string, studentId: string): seq<JsObject>
  {
    var afterDate := if date != "" then ByDate(s, date) else s;
    if studentId != "" then ByStudent(afterDate, studentId) else afterDate
  }

  /** Applying the active filters one after the other, as the handler does,
      gives the records that pass both. */
  lemma FiltersInTurnPass(s: seq<JsObject>, date: string, studentId: string)
    ensures FiltersInTurn(s, date, studentId) == FilterAttendance(s, date, studentId)
  {
    if date != "" && studentId != "" {
      BothFilters(s, date, studentId);
    } else if date != "" {
      FilterSameTest(s, DateTest(date), PassTest(date, studentId));
    } else if studentId != "" {
      FilterSameTest(s, StudentTest(studentId), PassTest(date, studentId));
    } else {
      FilterAll(s, PassTest(date, studentId));
    }
  }

  lemma BothFilters(s: seq<JsObject>, date: string, studentId: string)
    requires date != "" && studentId != ""
    ensures ByStudent(ByDate(s, date), studentId) == FilterAttendance(s, date, studentId)
  {
    FilterFilter(s, DateTest(date), StudentTest(studentId), PassTest(date, studentId));
  }

  /** With both filters empty every record passes, so nothing is filtered out. */
  lemma NoFilterKeepsAll(s: seq<JsObject>)
    ensures FilterAttendance(s, "", "") == s
  {
    FilterAll(s, PassTest("", ""));
  }

  /** `s.slice(0, 10)` of a string. */
  function First10(s: string): (r: string)
    ensures r <= s && |r| == Min(10, |s|)
  {
    if |s| <= 10 then s else s[..10]
  }

  class AttendanceScreen {
    var asistencias: seq<JsObject>
    var filtered: seq<JsObject>
    var selectedDate: string
    var studentId: string
    var form: AttendanceForm
    var editingId: JsValue
    var error: Option<string>
    var currentPage: int

    /** The shown list is drawn from the loaded list, in its order. */
    ghost predicate Valid()
      reads this
    {
      Subsequence(filtered, asistencias)
    }

    /** `Math.ceil(filtered.length / 10)`. */
    function TotalPaginas(): nat
      reads this
    {
      TotalPages(|filtered|)
    }

    /** The records on the current page. */
    function Paginados(): (r: seq<JsObject>)
      reads this
      ensures currentPage >= 1 ==> |r| <= PageSize
      ensures currentPage >= 1 ==> r == filtered[Min((currentPage - 1) * PageSize, |filtered|)..Min(currentPage * PageSize, |filtered|)]
    {
      if currentPage >= 1 then PageWindow(filtered, currentPage); PageOf(filtered, currentPage)
      else PageOf(filtered, currentPage)
    }

    constructor()
      ensures Valid()
      ensures asistencias == [] && filtered == [] && selectedDate == "" && studentId == ""
      ensures form == InitialForm && editingId == Null && error == None && currentPage == 1
    {
      asistencias := [];
      filtered := [];
      selectedDate := "";
      studentId := "";
      form := InitialForm;
      editingId := Null;
      error := None;
      currentPage := 1;
    }

    /** `fetchAll`: on an ok answer the loaded list replaces both lists; otherwise
        the error is shown. */
    method FetchAll(response: Fetched<seq<JsObject>>) returns (requests: seq<Request>)
      requires Valid()
      modifies this
      ensures Valid()
      ensures requests == [Get(ApiAsistencias)]
      ensures response.Response? && response.ok ==>
                asistencias == response.json && filtered == response.json && error == old(error)
      ensures !(response.Response? && response.ok) ==>
                asistencias == old(asistencias) && filtered == old(filtered)
                && error == Some("No se pudo cargar asistencias")
      ensures selectedDate == old(selectedDate) && studentId == old(studentId) && form == old(form)
      ensures editingId == old(editingId) && currentPage == old(currentPage)
    {
      requests := [Get(ApiAsistencias)];
      if response.Response? && response.ok {
        asistencias := response.json;
        filtered := response.json;
        SubsequenceReflexive(filtered);
      } else {
        error := Some("No se pudo cargar asistencias");
      }
    }

    /** `handleFilter`, run whenever the date, the student id or the loaded list
        changes: keeps the records that pass both active filters, in order, and
        goes back to page 1. */
    method HandleFilter()
      requires Valid()
      modifies this
      ensures Valid()
      ensures filtered == FilterAttendance(asistencias, selectedDate, studentId)
      ensures currentPage == 1
      ensures asistencias == old(asistencias) && selectedDate == old(selectedDate) && studentId == old(studentId)
      ensures form == old(form) && editingId == old(editingId) && error == old(error)
    {
      var tmp := asistencias;
      if selectedDate != "" {
        tmp := ByDate(tmp, selectedDate);
      }
      if studentId != "" {
        tmp := ByStudent(tmp, studentId);
      }
      assert tmp == FiltersInTurn(asistencias, selectedDate, studentId);
      FiltersInTurnPass(asistencias, selectedDate, studentId);
      filtered := tmp;
      currentPage := 1;
    }

    /** `handleSubmit`: a form with an `id_asistencia` is sent with PUT to that
        record, any other with POST; the body carries only the student, the date
        and the status. After an ok answer the list is reloaded and the form, the
        edited id and the error are reset (so a failed reload leaves no error on
        screen); otherwise the error is shown and the form is kept. */
    method HandleSubmit(save: Fetched<Json>, reload: Fetched<seq<JsObject>>) returns (requests: seq<Request>)
      requires Valid()
      modifies this
      ensures Valid()
      ensures var body := map["id_estudiante" := old(form).id_estudiante, "fecha" := old(form).fecha,
                              "estado" := old(form).estado];
              var sent := if Truthy(old(form).id_asistencia)
                          then Put(ApiAsistencias + "/" + ToJsString(old(form).id_asistencia), body)
                          else Post(ApiAsistencias, body);
              requests == if save.Response? && save.ok then [sent, Get(ApiAsistencias)] else [sent]
      ensures save.Response? && save.ok ==>
                && asistencias == (if reload.Response? && reload.ok then reload.json else old(asistencias))
                && filtered == (if reload.Response? && reload.ok then reload.json else old(filtered))
                && form == InitialForm && editingId == Null && error == None
      ensures !(save.Response? && save.ok) ==>
                && asistencias == old(asistencias) && filtered == old(filtered)
                && form == old(form) && editingId == old(editingId) && error == Some("Error al guardar asistencia")
      ensures selectedDate == old(selectedDate) && studentId == old(studentId) && currentPage == old(currentPage)
    {
      var body := map["id_estudiante" := form.id_estudiante, "fecha" := form.fecha, "estado" := form.estado];
      var sent := if Truthy(form.id_asistencia)
                  then Put(ApiAsistencias + "/" + ToJsString(form.id_asistencia), body)
                  else Post(ApiAsistencias, body);
      requests := [sent];
      if !(save.Response? && save.ok) {
        error := Some("Error al guardar asistencia");
        return;
      }
      var reloadRequests := FetchAll(reload);
      requests := requests + reloadRequests;
      ResetForm();
    }

    /** `handleDelete`: after the user confirms, deletes and reloads; the answer's
        status is not looked at. */
    method HandleDelete(id: JsValue, confirmed: bool, deletion: Fetched<Json>, reload: Fetched<seq<JsObject>>)
      returns (requests: seq<Request>)
      requires Valid()
      modifies this
      ensures Valid()
      ensures !confirmed ==> requests == [] && asistencias == old(asistencias) && filtered == old(filtered) && error == old(error)
      ensures confirmed && deletion.NetworkError? ==>
                requests == [Delete(ApiAsistencias + "/" + ToJsString(id))]
                && asistencias == old(asistencias) && filtered == old(filtered) && error == Some("Error al eliminar asistencia")
      ensures confirmed && deletion.Response? ==>
                && requests == [Delete(ApiAsistencias + "/" + ToJsString(id)), Get(ApiAsistencias)]
                && asistencias == (if reload.Response? && reload.ok then reload.json else old(asistencias))
                && filtered == (if reload.Response? && reload.ok then reload.json else old(filtered))
                && error == (if reload.Response? && reload.ok then old(error) else Some("No se pudo cargar asistencias"))
      ensures selectedDate == old(selectedDate) && studentId == old(studentId) && form == old(form)
      ensures editingId == old(editingId) && currentPage == old(currentPage)
    {
      if !confirmed {
        return [];
      }
      requests := [Delete(ApiAsistencias + "/" + ToJsString(id))];
      if deletion.NetworkError? {
        error := Some("Error al eliminar asistencia");
        return;
      }
      var reloadRequests := FetchAll(reload);
      requests := requests + reloadRequests;
    }

    /** `handleEditClick`: copies the record into the form with its date cut to
        `YYYY-MM-DD`, and opens its edit panel, or closes it when it was open. */
    method HandleEditClick(a: JsObject)
      requires Prop(a, "fecha").Str?
      modifies this
      ensures form == AttendanceForm(Prop(a, "id_asistencia"), Prop(a, "id_estudiante"),
                                     Str(First10(Prop(a, "fecha").s)), Prop(a, "estado"))
      ensures editingId == EditToggle(old(editingId), Prop(a, "id_asistencia"))
      ensures asistencias == old(asistencias) && filtered == old(filtered) && selectedDate == old(selectedDate)
      ensures studentId == old(studentId) && error == old(error) && currentPage == old(currentPage)
    {
      form := AttendanceForm(Prop(a, "id_asistencia"), Prop(a, "id_estudiante"),
                             Str(First10(Prop(a, "fecha").s)), Prop(a, "estado"));
      editingId := EditToggle(editingId, Prop(a, "id_asistencia"));
    }

    /** `resetForm`. */
    method ResetForm()
      modifies this
      ensures form == InitialForm && editingId == Null && error == None
      ensures asistencias == old(asistencias) && filtered == old(filtered) && selectedDate == old(selectedDate)
      ensures studentId == old(studentId) && currentPage == old(currentPage)
    {
      form := InitialForm;
      editingId := Null;
      error := None;
    }

    /** The "previous" button: `p - 1`, unless disabled on page 1. */
    method PrevPage()
      modifies this
      ensures currentPage == ClickPrev(old(currentPage))
      ensures asistencias == old(asistencias) && filtered == old(filtered) && selectedDate == old(selectedDate)
      ensures studentId == old(studentId) && form == old(form) && editingId == old(editingId) && error == old(error)
    {
      currentPage := ClickPrev(currentPage);
    }

    /** The "next" button: `p + 1`, unless disabled on the last page. */
    method NextPage()
      modifies this
      ensures currentPage == ClickNext(old(currentPage), TotalPages(|filtered|))
      ensures asistencias == old(asistencias) && filtered == old(filtered) && selectedDate == old(selectedDate)
      ensures studentId == old(studentId) && form == old(form) && editingId == old(editingId) && error == old(error)
    {
      currentPage := ClickNext(currentPage, TotalPages(|filtered|));
    }
  }

  /** The edited id after an edit click on the record with id `id`. */
  function EditToggle(editingId: JsValue, id: JsValue): (r: JsValue)
    ensures editingId == id ==> r == Null
    ensures editingId != id ==> r == id
  {
    if editingId == id then Null else id
  }

  /** A click on a record whose panel is closed opens it, and a second click
      on the same record closes it. */
  lemma EditClickTwiceCloses(editingId: JsValue, id: JsValue)
    requires editingId != id
    ensures EditToggle(editingId, id) == id
    ensures EditToggle(EditToggle(editingId, id), id) == Null
  {
  }
}
