/**
 * The students screen (frontend/src/Notas.js): the list of all students with
 * two looked-up columns (the student's teacher and today's attendance), ten
 * per page, a search by student id that opens the student in a detail view,
 * and a form that creates a student or updates the one shown.
 *
 * Teachers, students and attendance records are the JSON objects the server
 * sends. Each handler is one atomic step that receives the outcome of its
 * requests as parameters; `today` (the date part of the current time) and the
 * message of a rejected `fetch` are parameters too.
 */
module GradesView {
  import opened Js
  import opened Http
  import opened Seqs
  import opened Pagination

  const ApiEstudiantes: string := "http://localhost:5000/api/estudiantes"
  const ApiDocentes: string := "http://localhost:5000/api/docentes"
  const ApiAsistencias: string := "http://localhost:5000/api/asistencias"

  /** The two values `viewMode` takes. */
  datatype ViewMode = General | Detail

  /** The create/edit form. */
  datatype StudentForm = StudentForm(nombre_est: JsValue, apellido_est: JsValue, salon_est: JsValue, id_docentes: JsValue)
  {
    /** The JSON body the form is sent as. */
    function Body(): JsObject
    {
      map["nombre_est" := nombre_est, "apellido_est" := apellido_est, "salon_est" := salon_est,
          "id_docentes" := id_docentes]
    }
  }

  const BlankForm: StudentForm := StudentForm(Str(""), Str(""), Str(""), Str(""))

  /** The form fields the inputs edit. */
  datatype FormField = NombreEst | ApellidoEst | SalonEst | IdDocentes

  /** A student as `GET /:id` answers it: its scalar properties, and its `notas`
      property (`JPrimitive(Undefined)` when absent). */
  datatype StudentData = StudentData(fields: JsObject, notas: Json)

  /** The selected student. */
  datatype StudentInfo = StudentInfo(id: JsValue, nombre: JsValue, apellido: JsValue, salon: JsValue,
                                     id_docentes: JsValue, materias: Json)

  /** `a || b`. */
  function Or(a: JsValue, b: JsValue): JsValue
  {
    if Truthy(a) then a else b
  }

  /** `data.notas || []`. */
  function Materias(notas: Json): Json
  {
    if notas.JPrimitive? && !Truthy(notas.v) then JArray([]) else notas
  }

  function InfoOf(d: StudentData): StudentInfo
  {
    StudentInfo(Prop(d.fields, "id_estudiante"), Prop(d.fields, "nombre_est"), Prop(d.fields, "apellido_est"),
                Prop(d.fields, "salon_est"), Prop(d.fields, "id_docentes"), Materias(d.notas))
  }

  function FormOf(d: StudentData): StudentForm
  {
    StudentForm(Prop(d.fields, "nombre_est"), Prop(d.fields, "apellido_est"), Prop(d.fields, "salon_est"),
                Or(Prop(d.fields, "id_docentes"), Str("")))
  }

  /** A loaded student without grades gets an empty list of subjects; grades
      that are there are kept as sent. */
  lemma MateriasDefault(d: StudentData)
    ensures !(d.notas.JPrimitive? && !Truthy(d.notas.v)) ==> InfoOf(d).materias == d.notas
    ensures d.notas == JPrimitive(Undefined) ==> InfoOf(d).materias == JArray([])
    ensures InfoOf(d).materias != JPrimitive(Undefined) && InfoOf(d).materias != JPrimitive(Null)
  {
  }

  // ---------------------------------------------------------------------------
  // Submit: the request the form is sent with

  /** The target: the selected student in the detail view, the collection otherwise. */
  function SubmitUrl(view: ViewMode, info: Option<StudentInfo>): string
  {
    if view == Detail && info.Some? then ApiEstudiantes + "/" + ToJsString(info.value.id) else ApiEstudiantes
  }

  /** `String(studentInfo?.id)`: `"undefined"` when no student is selected. */
  function SelectedIdText(info: Option<StudentInfo>): string
  {
    ToJsString(if info.Some? then info.value.id else Undefined)
  }

  /** `PUT` when the target contains the selected id, `POST` otherwise. */
  function SubmitRequest(view: ViewMode, info: Option<StudentInfo>, form: StudentForm): Request
  {
    var url := SubmitUrl(view, info);
    if Includes(url, SelectedIdText(info)) then Put(url, form.Body()) else Post(url, form.Body())
  }

  lemma CollectionHasNoUndefined()
    ensures !Includes(ApiEstudiantes, "undefined")
  {
    var base := ApiEstudiantes;
    assert 'f' !in base;
    forall i | 0 <= i <= |base| - 9 ensures !OccursAt(base, "undefined", i) {
      assert base[i..i + 9][4] == base[i + 4];
    }
  }

  /** Whenever a selected student implies the detail view, the form updates the
      selected student exactly when there is one, and creates a student
      otherwise. */
  lemma SubmitUpdatesSelected(view: ViewMode, info: Option<StudentInfo>, form: StudentForm)
    requires info.Some? ==> view == Detail
    ensures SubmitRequest(view, info, form).Put? <==> info.Some?
    ensures info.Some? ==> SubmitRequest(view, info, form) == Put(ApiEstudiantes + "/" + ToJsString(info.value.id), form.Body())
    ensures info.None? ==> SubmitRequest(view, info, form) == Post(ApiEstudiantes, form.Body())
  {
    if info.Some? {
      var url := SubmitUrl(view, info);
      var id := SelectedIdText(info);
      var k := |ApiEstudiantes| + 1;
      assert OccursAt(url, id, k);
    } else {
      CollectionHasNoUndefined();
    }
  }

  // ---------------------------------------------------------------------------
  // The teacher and attendance columns

  /** `x.id_docentes === s.id_docentes` */
  predicate Teaches(d: JsObject, s: JsObject)
  {
    Prop(d, "id_docentes") == Prop(s, "id_docentes")
  }

  /** `${d.nombre_doc} ${d.apellido_doc}` */
  function FullName(d: JsObject): string
  {
    ToJsString(Prop(d, "nombre_doc")) + " " + ToJsString(Prop(d, "apellido_doc"))
  }

  lemma FullNameIsNotDash(d: JsObject)
    ensures FullName(d) != "—"
  {
    var first := ToJsString(Prop(d, "nombre_doc"));
    assert FullName(d)[|first|] == ' ';
  }

  /** The teacher column: the name of the first teacher with the student's
      `id_docentes`, or `—` when there is none. */
  function DocenteCell(docentes: seq<JsObject>, s: JsObject): (r: string)
    ensures r == "—" <==> forall j :: 0 <= j < |docentes| ==> !Teaches(docentes[j], s)
    ensures forall i :: (0 <= i < |docentes| && Teaches(docentes[i], s)
                         && forall j :: 0 <= j < i ==> !Teaches(docentes[j], s)) ==> r == FullName(docentes[i])
  {
    match FindIndex(docentes, d => Teaches(d, s))
    case None => "—"
    case Some(i) => FullNameIsNotDash(docentes[i]); FullName(docentes[i])
  }

  /** `x.id_estudiante === s.id_estudiante && x.fecha.split('T')[0] === today`;
      a record whose `fecha` is not a string is taken as not matching. */
  predicate AttendedOn(a: JsObject, s: JsObject, today: string)
  {
    Prop(a, "id_estudiante") == Prop(s, "id_estudiante")
    && Prop(a, "fecha").Str? && BeforeFirst(Prop(a, "fecha").s, 'T') == today
  }

  /** The attendance column: the status of the student's first record dated
      today, or `—` when there is none. */
  function AsistenciaCell(asistencias: seq<JsObject>, s: JsObject, today: string): (r: JsValue)
    ensures (forall j :: 0 <= j < |asistencias| ==> !AttendedOn(asistencias[j], s, today)) ==> r == Str("—")
    ensures forall i :: (0 <= i < |asistencias| && AttendedOn(asistencias[i], s, today)
                         && forall j :: 0 <= j < i ==> !AttendedOn(asistencias[j], s, today))
                         ==> r == Prop(asistencias[i], "estado")
  {
    match FindIndex(asistencias, a => AttendedOn(a, s, today))
    case None => Str("—")
    case Some(k) =>
      assert forall i :: (0 <= i < |asistencias| && AttendedOn(asistencias[i], s, today)
                         && forall j :: 0 <= j < i ==> !AttendedOn(asistencias[j], s, today)) ==> i == k;
      Prop(asistencias[k], "estado")
  }

  /** One row of the table and of the spreadsheet. */
  datatype StudentRow = StudentRow(id: JsValue, nombre: JsValue, apellido: JsValue, salon: JsValue,
                                   docente: string, asistencia: JsValue)

  function RowOf(s: JsObject, docentes: seq<JsObject>, asistencias: seq<JsObject>, today: string): StudentRow
  {
    StudentRow(Prop(s, "id_estudiante"), Prop(s, "nombre_est"), Prop(s, "apellido_est"), Prop(s, "salon_est"),
               DocenteCell(docentes, s), AsistenciaCell(asistencias, s, today))
  }

  /** The rows of the spreadsheet: one per student, in order. */
  function ExportRows(students: seq<JsObject>, docentes: seq<JsObject>, asistencias: seq<JsObject>, today: string)
    : (r: seq<StudentRow>)
    ensures |r| == |students|
    ensures forall i :: 0 <= i < |students| ==> r[i] == RowOf(students[i], docentes, asistencias, today)
  {
    if students == [] then []
    else [RowOf(students[0], docentes, asistencias, today)] + ExportRows(students[1..], docentes, asistencias, today)
  }

  /** The row of a student, with the teacher and attendance lists fixed. */
  function RowMaker(docentes: seq<JsObject>, asistencias: seq<JsObject>, today: string): JsObject -> StudentRow
  {
    (s: JsObject) => RowOf(s, docentes, asistencias, today)
  }

  /** The table shows, on each page, exactly that page of the spreadsheet. */
  lemma TablePageIsExportPage(students: seq<JsObject>, docentes: seq<JsObject>, asistencias: seq<JsObject>,
                              today: string, page: int)
    ensures ExportRows(PageOf(students, page), docentes, asistencias, today)
            == PageOf(ExportRows(students, docentes, asistencias, today), page)
  {
    PageOfMapped(students, ExportRows(students, docentes, asistencias, today),
                 ExportRows(PageOf(students, page), docentes, asistencias, today),
                 RowMaker(docentes, asistencias, today), page);
  }

  // ---------------------------------------------------------------------------
  // The screen

  class GradesScreen {
    var docentes: seq<JsObject>
    var allStudents: seq<JsObject>
    var asistencias: seq<JsObject>
    var viewMode: ViewMode
    var studentId: string
    var studentInfo: Option<StudentInfo>
    var error: Option<string>
    var formData: StudentForm
    var currentPage: int

    /** A selected student is always shown in the detail view. */
    ghost predicate Valid()
      reads this
    {
      studentInfo.Some? ==> viewMode == Detail
    }

    /** `Math.ceil(allStudents.length / 10)`. */
    function TotalPaginas(): nat
      reads this
    {
      TotalPages(|allStudents|)
    }

    /** The table rows on the current page: at most ten, the students from
        `(currentPage - 1) * 10` on, each with its looked-up columns. */
    function TableRows(today: string): (r: seq<StudentRow>)
      reads this
      ensures currentPage >= 1 ==> |r| <= PageSize
      ensures r == PageOf(ExportRows(allStudents, docentes, asistencias, today), currentPage)
    {
      TablePageIsExportPage(allStudents, docentes, asistencias, today, currentPage);
      if currentPage >= 1 then
        PageWindow(allStudents, currentPage);
        ExportRows(PageOf(allStudents, currentPage), docentes, asistencias, today)
      else ExportRows(PageOf(allStudents, currentPage), docentes, asistencias, today)
    }

    constructor()
      ensures Valid()
      ensures docentes == [] && allStudents == [] && asistencias == [] && viewMode == General
      ensures studentId == "" && studentInfo == None && error == None && formData == BlankForm && currentPage == 1
    {
      docentes := [];
      allStudents := [];
      asistencias := [];
      viewMode := General;
      studentId := "";
      studentInfo := None;
      error := None;
      formData := BlankForm;
      currentPage := 1;
    }

    /** The mount effect: loads the teachers and the attendance records
        (the body of any answer is taken, a rejected request gives `[]`),
        then `handleGeneral`. */
    method Mount(docentesAnswer: Fetched<seq<JsObject>>, asistenciasAnswer: Fetched<seq<JsObject>>,
                 general: Fetched<seq<JsObject>>, rejection: string)
      returns (requests: seq<Request>)
      requires Valid()
      modifies this
      ensures Valid()
      ensures requests == [Get(ApiDocentes), Get(ApiAsistencias), Get(ApiEstudiantes)]
      ensures docentes == (if docentesAnswer.Response? then docentesAnswer.json else [])
      ensures asistencias == (if asistenciasAnswer.Response? then asistenciasAnswer.json else [])
      ensures general.Response? && general.ok ==>
                allStudents == general.json && viewMode == General && error == None
                && formData == BlankForm && studentInfo == None
      ensures !(general.Response? && general.ok) ==>
                allStudents == old(allStudents) && viewMode == old(viewMode) && formData == old(formData)
                && studentInfo == old(studentInfo)
                && error == Some(if general.NetworkError? then rejection else "Error al cargar estudiantes")
      ensures studentId == old(studentId) && currentPage == old(currentPage)
    {
      docentes := if docentesAnswer.Response? then docentesAnswer.json else [];
      asistencias := if asistenciasAnswer.Response? then asistenciasAnswer.json else [];
      var loading := HandleGeneral(general, rejection);
      requests := [Get(ApiDocentes), Get(ApiAsistencias)] + loading;
    }

    /** `handleGeneral`: on an ok answer shows the general view with the loaded
        students, a blank form, no error and no selected student; otherwise
        only the error changes. The page is not reset. */
    method HandleGeneral(response: Fetched<seq<JsObject>>, rejection: string) returns (requests: seq<Request>)
      requires Valid()
      modifies this
      ensures Valid()
      ensures requests == [Get(ApiEstudiantes)]
      ensures response.Response? && response.ok ==>
                allStudents == response.json && viewMode == General && error == None
                && formData == BlankForm && studentInfo == None
      ensures !(response.Response? && response.ok) ==>
                allStudents == old(allStudents) && viewMode == old(viewMode) && formData == old(formData)
                && studentInfo == old(studentInfo)
                && error == Some(if response.NetworkError? then rejection else "Error al cargar estudiantes")
      ensures docentes == old(docentes) && asistencias == old(asistencias)
      ensures studentId == old(studentId) && currentPage == old(currentPage)
    {
      requests := [Get(ApiEstudiantes)];
      if response.NetworkError? {
        error := Some(rejection);
        return;
      }
      if !response.ok {
        error := Some("Error al cargar estudiantes");
        return;
      }
      allStudents := response.json;
      viewMode := General;
      error := None;
      ResetForm();
      studentInfo := None;
    }

    /** `handleSearch`: nothing at all when the typed id is blank; otherwise
        the student is requested by the id as typed. An ok answer selects it
        (subjects default to `[]`), fills the form and opens the detail view;
        any other outcome shows the error and clears the selection. */
    method HandleSearch(response: Fetched<StudentData>, rejection: string) returns (requests: seq<Request>)
      requires Valid()
      modifies this
      ensures Valid()
      ensures AllWhitespace(old(studentId)) ==>
                requests == [] && studentInfo == old(studentInfo) && formData == old(formData)
                && error == old(error) && viewMode == old(viewMode)
      ensures !AllWhitespace(old(studentId)) ==> requests == [Get(ApiEstudiantes + "/" + old(studentId))]
      ensures !AllWhitespace(old(studentId)) && response.Response? && response.ok ==>
                studentInfo == Some(InfoOf(response.json)) && formData == FormOf(response.json)
                && error == None && viewMode == Detail
      ensures !AllWhitespace(old(studentId)) && !(response.Response? && response.ok) ==>
                studentInfo == None && formData == old(formData) && viewMode == old(viewMode)
                && error == Some(if response.NetworkError? then rejection else "Estudiante no encontrado")
      ensures docentes == old(docentes) && allStudents == old(allStudents) && asistencias == old(asistencias)
      ensures studentId == old(studentId) && currentPage == old(currentPage)
    {
      // `!studentId.trim()`, which holds exactly on white space (Js.TrimEmptyIffBlank).
      if AllWhitespace(studentId) {
        return [];
      }
      requests := [Get(ApiEstudiantes + "/" + studentId)];
      if !(response.Response? && response.ok) {
        error := Some(if response.NetworkError? then rejection else "Estudiante no encontrado");
        studentInfo := None;
        return;
      }
      studentInfo := Some(InfoOf(response.json));
      formData := FormOf(response.json);
      error := None;
      viewMode := Detail;
    }

    /** `handleSubmit`: sends the form (see `SubmitRequest`); after an ok answer
        runs `handleGeneral`; after anything else only an alert is shown. */
    method HandleSubmit(save: Fetched<Json>, reload: Fetched<seq<JsObject>>, rejection: string)
      returns (requests: seq<Request>)
      requires Valid()
      modifies this
      ensures Valid()
      ensures var sent := SubmitRequest(old(viewMode), old(studentInfo), old(formData));
              requests == if save.Response? && save.ok then [sent, Get(ApiEstudiantes)] else [sent]
      ensures save.Response? && save.ok && reload.Response? && reload.ok ==>
                allStudents == reload.json && viewMode == General && error == None
                && formData == BlankForm && studentInfo == None
      ensures save.Response? && save.ok && !(reload.Response? && reload.ok) ==>
                allStudents == old(allStudents) && viewMode == old(viewMode) && formData == old(formData)
                && studentInfo == old(studentInfo)
                && error == Some(if reload.NetworkError? then rejection else "Error al cargar estudiantes")
      ensures !(save.Response? && save.ok) ==>
                allStudents == old(allStudents) && viewMode == old(viewMode) && formData == old(formData)
                && studentInfo == old(studentInfo) && error == old(error)
      ensures docentes == old(docentes) && asistencias == old(asistencias)
      ensures studentId == old(studentId) && currentPage == old(currentPage)
    {
      requests := [SubmitRequest(viewMode, studentInfo, formData)];
      if save.Response? && save.ok {
        var loading := HandleGeneral(reload, rejection);
        requests := requests + loading;
      }
    }

    /** `handleDelete`: only with a selected student and after the user
        confirms; an ok answer runs `handleGeneral`, anything else only alerts. */
    method HandleDelete(confirmed: bool, deletion: Fetched<Json>, reload: Fetched<seq<JsObject>>, rejection: string)
      returns (requests: seq<Request>)
      requires Valid()
      modifies this
      ensures Valid()
      ensures old(studentInfo).None? || !confirmed ==> requests == []
      ensures old(studentInfo).Some? && confirmed ==>
                var sent := Delete(ApiEstudiantes + "/" + ToJsString(old(studentInfo).value.id));
                requests == if deletion.Response? && deletion.ok then [sent, Get(ApiEstudiantes)] else [sent]
      ensures old(studentInfo).Some? && confirmed && deletion.Response? && deletion.ok && reload.Response? && reload.ok ==>
                allStudents == reload.json && viewMode == General && error == None
                && formData == BlankForm && studentInfo == None
      ensures old(studentInfo).Some? && confirmed && deletion.Response? && deletion.ok && !(reload.Response? && reload.ok) ==>
                allStudents == old(allStudents) && viewMode == old(viewMode) && formData == old(formData)
                && studentInfo == old(studentInfo)
                && error == Some(if reload.NetworkError? then rejection else "Error al cargar estudiantes")
      ensures !(old(studentInfo).Some? && confirmed && deletion.Response? && deletion.ok) ==>
                allStudents == old(allStudents) && viewMode == old(viewMode) && formData == old(formData)
                && studentInfo == old(studentInfo) && error == old(error)
      ensures docentes == old(docentes) && asistencias == old(asistencias)
      ensures studentId == old(studentId) && currentPage == old(currentPage)
    {
      if studentInfo.None? || !confirmed {
        return [];
      }
      requests := [Delete(ApiEstudiantes + "/" + ToJsString(studentInfo.value.id))];
      if deletion.Response? && deletion.ok {
        var loading := HandleGeneral(reload, rejection);
        requests := requests + loading;
      }
    }

    /** `resetForm`: every field blank. */
    method ResetForm()
      modifies this
      ensures formData == BlankForm
      ensures docentes == old(docentes) && allStudents == old(allStudents) && asistencias == old(asistencias)
      ensures viewMode == old(viewMode) && studentId == old(studentId) && studentInfo == old(studentInfo)
      ensures error == old(error) && currentPage == old(currentPage)
    {
      formData := BlankForm;
    }

    /** Typing in the search box. */
    method ChangeStudentId(text: string)
      modifies this
      ensures studentId == text
      ensures docentes == old(docentes) && allStudents == old(allStudents) && asistencias == old(asistencias)
      ensures viewMode == old(viewMode) && studentInfo == old(studentInfo) && formData == old(formData)
      ensures error == old(error) && currentPage == old(currentPage)
    {
      studentId := text;
    }

    /** Typing in one input of the form: only that field changes. */
    method ChangeField(field: FormField, value: string)
      modifies this
      ensures formData == match field
                          case NombreEst => old(formData).(nombre_est := Str(value))
                          case ApellidoEst => old(formData).(apellido_est := Str(value))
                          case SalonEst => old(formData).(salon_est := Str(value))
                          case IdDocentes => old(formData).(id_docentes := Str(value))
      ensures docentes == old(docentes) && allStudents == old(allStudents) && asistencias == old(asistencias)
      ensures viewMode == old(viewMode) && studentId == old(studentId) && studentInfo == old(studentInfo)
      ensures error == old(error) && currentPage == old(currentPage)
    {
      match field
      case NombreEst => formData := formData.(nombre_est := Str(value));
      case ApellidoEst => formData := formData.(apellido_est := Str(value));
      case SalonEst => formData := formData.(salon_est := Str(value));
      case IdDocentes => formData := formData.(id_docentes := Str(value));
    }

    /** "Previous": `Math.max(p - 1, 1)`. */
    method PrevPage()
      modifies this
      ensures currentPage == PrevAtLeastOne(old(currentPage))
      ensures docentes == old(docentes) && allStudents == old(allStudents) && asistencias == old(asistencias)
      ensures viewMode == old(viewMode) && studentId == old(studentId) && studentInfo == old(studentInfo)
      ensures error == old(error) && formData == old(formData)
    {
      currentPage := PrevAtLeastOne(currentPage);
    }

    /** "Next": `Math.min(p + 1, totalPaginas)`; the disabled flag at the last
        page changes nothing, as the updater already stays there. */
    method NextPage()
      modifies this
      ensures currentPage == NextAtMostTotal(old(currentPage), TotalPages(|allStudents|))
      ensures docentes == old(docentes) && allStudents == old(allStudents) && asistencias == old(asistencias)
      ensures viewMode == old(viewMode) && studentId == old(studentId) && studentInfo == old(studentInfo)
      ensures error == old(error) && formData == old(formData)
    {
      currentPage := NextAtMostTotal(currentPage, TotalPages(|allStudents|));
    }
  }
}
