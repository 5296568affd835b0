# School dashboard: a verified model

This project models the core of a small school administration system. It has two halves.

The first half is an Express backend over PostgreSQL:

- **Follow-up log** (`/api/seguimientos`). A create handler validates its payload in three stages: required fields, then the motive, then the status. Only a payload that passes all three is appended. Three listings read the log: every follow-up by id, the follow-ups of one lead newest first, and every follow-up joined with its lead's channel.
- **Leads** (`/api/registros`). A keyed table with a listing, a lookup by phone number, a lookup by id, create, full-replacement update and delete.
- **Users** (`/api/usuarios`). The login decision. The mapping of unique-key violations to 409 answers. Get, update and delete, which answer `{}` or 204 instead of 404.

The second half is the React dashboard:

- **Follow-up screen.** Search a lead by phone. Show its follow-ups, every follow-up, or the table of leads. Add and delete follow-ups. Page through the lists.
- **Attendance screen.** Filter by date prefix and by student id. Create or edit one record. Page through the list.
- **Students screen.** Two looked-up columns: the teacher and today's attendance. Search by id into a detail view. Create, update and delete.
- **Teachers screen.** A form bound to one teacher, a search that loads a teacher into the form, and the spreadsheet rows.
- **Pie chart.** Groups rows by one column. It counts the rows, or sums another column, per group. It emits labels and values index-aligned.

How the project is laid out:

- Each screen and each backend router is one module.
- A backend table that handlers change in place is a class: `FollowUpLog.FollowUpTable` and `LeadStore.LeadTable`. The read-only handlers are functions over the table's contents.
- Each screen is a class whose fields are the component's state variables. Each event handler is one method of it.
- Every network answer a handler waits for is a parameter of that method. Each method returns the requests it sends, in order.
- Shared modules hold the JavaScript semantics the code relies on:
  - `Js`: truthiness, `String()`, `Number()`, `trim`, `split`;
  - `Db`: how PostgreSQL reads a parameter into an `integer` column, and the `ORDER BY` order on dates and times;
  - `Seqs`: `filter`, `find`, and sorting as a sorted permutation;
  - `Pagination`: `slice`, `Math.ceil`, and the three page-button rules.

## Model

| member | source | states |
|---|---|---|
| Js.NatToString | frontend/src/Nomina.js:55 | The text written for a natural number is digits only, has no leading zero, and reads back as that number. |
| Js.IntToString | frontend/src/Asistencia.js:58 | `String(n)` is never empty. A negative number is a minus sign followed by the digits of its magnitude. |
| Js.BeforeFirst | frontend/src/Notas.js:56 | `split('T')[0]` is a prefix of the text with no `T` in it, and stops only at a `T` or at the end. |
| Js.StripEmptyIffAllSpace | frontend/src/Notas.js:76 | Stripping a set of space characters leaves nothing exactly when every character is a space. |
| Js.TrimEmptyIffBlank | frontend/src/Nomina.js:83 | `!s.trim()` holds exactly when `s` is made of white space only. |
| Js.StringToNumber | frontend/src/Asistencia.js:47 | `Number(s)` of a blank string is 0. |
| Js.NumberOfIntToString | frontend/src/Asistencia.js:47 | `Number(String(n))` is `n` for every integer. |
| Db.IntegerInput | Backend/registros.js:45-48 | A route parameter read into an `integer` column is a 32-bit value or a failure. |
| Db.IntegerParamOfNum | Backend/seguimientos.js:180-181 | A JavaScript integer within 32 bits is stored unchanged. |
| Db.TextLeTotal | Backend/seguimientos.js:131 | Any two date or time texts are comparable. |
| Db.TextLeAntisymmetric | Backend/seguimientos.js:131 | Two texts that each sort no later than the other are equal. |
| Db.TextLeTransitive | Backend/seguimientos.js:131 | The text order is transitive. |
| Db.MomentLeTotal | Backend/seguimientos.js:115 | Any two (fecha, hora) pairs are comparable. |
| Db.MomentLeTransitive | Backend/seguimientos.js:115 | The (fecha, hora) order is transitive, so `ORDER BY fecha, hora` is a valid sort key. |
| Seqs.SortBy | Backend/seguimientos.js:101 | The result of `ORDER BY` holds the same rows, each as often, and is sorted. |
| Seqs.Filter | frontend/src/seguimientos.js:127 | `filter` keeps every occurrence of the passing elements and nothing else, in their order. |
| Seqs.FilterMembership | frontend/src/seguimientos.js:127 | An element survives `filter` exactly when it was there and passes. |
| Seqs.FilterFilter | frontend/src/Asistencia.js:46-47 | Two filters in turn keep exactly what passes both tests. |
| Seqs.Find | frontend/src/Notas.js:54 | `find` gives the first element of the list that passes, and gives nothing exactly when no element passes. |
| Pagination.SliceIndex | frontend/src/seguimientos.js:162 | `slice` clamps an out-of-range bound to the list, and counts a negative bound from the end. |
| Pagination.TotalPages | frontend/src/Asistencia.js:25 | `Math.ceil(len / 10)` pages hold every item, the last page is not empty, and an empty list has no pages. |
| Pagination.PageWindow | frontend/src/Asistencia.js:26-27 | From page 1 on, a page is the run of at most ten items starting at `(page - 1) * 10`. |
| Pagination.ItemOnItsPage | frontend/src/seguimientos.js:162 | Every item is shown on exactly one existing page, at position `i % 10`. |
| Pagination.PageBeyondRange | frontend/src/seguimientos.js:162 | Page 0 and the pages past the last show nothing. |
| Pagination.PrevAtLeastOne | frontend/src/seguimientos.js:306 | "Previous" never goes below page 1, and otherwise steps back by one. |
| Pagination.NextWhileMoreStaysInRange | frontend/src/seguimientos.js:308 | "Next" advances exactly while items lie beyond the page, so it never leaves the existing pages. |
| Pagination.NextWhileMoreShowsItems | frontend/src/seguimientos.js:213 | Moving forward always lands on a page with something on it. |
| Pagination.NextAtMostTotal | frontend/src/Notas.js:257 | "Next" never passes the page count. Below it, "next" steps forward by one; from the last page or any page past it, "next" goes to the last page. |
| Pagination.ClampedStaysInRange | frontend/src/Nomina.js:203-205 | With at least one page, both clamped buttons keep the page among the existing ones. |
| Pagination.EmptyListNextGoesToZero | frontend/src/Notas.js:256-257 | With no students there are no pages, "next" stays enabled on page 1, and clicking it goes to page 0. |
| Pagination.GuardedClicksStayInRange | frontend/src/Asistencia.js:230-232 | On a non-empty list the disabled flags alone keep the unclamped `p - 1` and `p + 1` within 1..total. |
| Pagination.EmptyListNextUnbounded | frontend/src/Asistencia.js:232 | With an empty list nothing disables "next": n clicks from page p reach page p + n. |
| FollowUpLog.ParseMotivo | Backend/seguimientos.js:151-157 | Exactly the five listed motive strings are accepted, each as its own value. |
| FollowUpLog.ParseEstado | Backend/seguimientos.js:159-164 | Exactly the four listed status strings are accepted, each as its own value. |
| FollowUpLog.ClosedSets | Backend/seguimientos.js:151-164 | There are five distinct motives and four distinct statuses; the lists hold exactly their texts. |
| FollowUpLog.MotivoRoundTrip | Backend/seguimientos.js:166 | The text of every motive is accepted as that motive. |
| FollowUpLog.EstadoRoundTrip | Backend/seguimientos.js:170 | The text of every status is accepted as that status. |
| FollowUpLog.Validate | Backend/seguimientos.js:146-172 | Each rejection holds exactly when its own check fails and every earlier check passed; success carries the motive and status sent. |
| FollowUpLog.CreateReply | Backend/seguimientos.js:141-187 | The create answer is 400 exactly on a failed check, 500 when an id is not a 32-bit integer, otherwise 201 with a row carrying the seven values under the next id. |
| FollowUpLog.BothInvalidReportsMotivo | Backend/seguimientos.js:166-172 | A payload with both an invalid motive and an invalid status is answered "Motivo no válido". |
| FollowUpLog.EmptyEstadoReportsMissing | Backend/seguimientos.js:147-148 | An empty status is reported as a missing field, whatever the motive. |
| FollowUpLog.NotasNeverChecked | Backend/seguimientos.js:143-147 | The notes take no part in the checks. |
| FollowUpLog.ValidateBodyOf | Backend/seguimientos.js:147-172 | Sending back the fields of a stored follow-up with non-empty required fields passes every check. |
| FollowUpLog.StoredBodyOf | Backend/seguimientos.js:174-182 | Inserting the fields of a stored follow-up stores that same row. |
| FollowUpLog.CreateOfBodyOf | Backend/seguimientos.js:141-182 | Every storable follow-up can be created: its own fields are answered 201 with exactly that row. |
| FollowUpLog.FollowUpTable.Create | Backend/seguimientos.js:174-182 | A payload that passes appends exactly one row and takes the next id; any other answer leaves the table unchanged. |
| FollowUpLog.IdLeIsTotalPreorder | Backend/seguimientos.js:101 | Ordering by id is a valid sort key. |
| FollowUpLog.ListAll | Backend/seguimientos.js:99-102 | The plain listing holds every follow-up once, in ascending id. |
| FollowUpLog.AscendingIsUnique | Backend/seguimientos.js:101 | There is only one way to list rows with distinct ids in ascending id order. |
| FollowUpLog.ListAllIsTableOrder | Backend/seguimientos.js:101 | The plain listing of the table is the table in insertion order. |
| FollowUpLog.NewestFirstIsTotalPreorder | Backend/seguimientos.js:131 | `ORDER BY fecha DESC, hora DESC` is a valid sort key. |
| FollowUpLog.ListByLead | Backend/seguimientos.js:127-138 | The listing holds exactly the lead's follow-ups, newest first. It is empty, not an error, when there are none, and 500 when the id is not an integer. |
| FollowUpLog.JoinAll | Backend/seguimientos.js:111-114 | The inner join holds each follow-up whose lead exists, with that lead's channel, and nothing else. |
| FollowUpLog.ListJoined | Backend/seguimientos.js:109-122 | The joined listing holds exactly the joinable follow-ups, extended with `medio_reg`, newest first. |
| FollowUpLog.JoinedMembership | Backend/seguimientos.js:111-118 | A follow-up of an existing lead is listed with that lead's channel; every listed entry is such a follow-up. |
| LeadStore.ColumnsOfBodyOf | Backend/registros.js:73-90 | Sending back a lead's stored columns stores exactly them; no field is altered on the way. |
| LeadStore.ListLeads | Backend/registros.js:14-17 | The listing holds every lead exactly once, ids strictly ascending. |
| LeadStore.FindByPhone | Backend/registros.js:27-34 | The phone lookup answers 200 with a lead of that phone, or with `{}` exactly when no lead has it; never 404. |
| LeadStore.GetLead | Backend/registros.js:42-56 | 404 exactly when no lead has the id, 500 when the id is not an integer, otherwise that lead. |
| LeadStore.UpdateReply | Backend/registros.js:98-146 | 404 exactly on an absent id; otherwise the lead under that id with all eight sent fields and a fresh `updated_at`. |
| LeadStore.DeleteReply | Backend/registros.js:150-163 | 204 exactly when the lead exists, 404 when it does not, 500 on a non-integer id. |
| LeadStore.LeadTable.Create | Backend/registros.js:60-90 | The eight fields are stored unvalidated under a fresh id, without `updated_at`, and nothing else changes. |
| LeadStore.LeadTable.Update | Backend/registros.js:98-142 | Only the lead with that id is replaced; an absent id changes nothing. |
| LeadStore.LeadTable.Delete | Backend/registros.js:150-159 | Exactly the lead with that id is removed; an absent id removes nothing. |
| LeadStore.GetAfterCreate | Backend/registros.js:42-52 | Reading a lead back after creating it gives the created row. |
| LeadStore.GetAfterUpdate | Backend/registros.js:112-142 | Reading a lead after a successful update gives the updated row. |
| LeadStore.GetAfterDelete | Backend/registros.js:153-157 | After a delete answered 204, reading or deleting the lead again answers 404. |
| LeadStore.NotFoundAgrees | Backend/registros.js:49-51 | Get, update and delete agree on which ids are absent. |
| Users.Login | Backend/usuarios.js:251-268 | 400 exactly on a missing credential; 200 exactly when some user has both, with the first such user; 401 otherwise. |
| Users.LoginWithOwnCredentials | Backend/usuarios.js:259-268 | A user's own non-empty stored email and password log that user in, unless an earlier user has the same pair. |
| Users.CreateReply | Backend/usuarios.js:102-113 | A unique violation answers 409, with a message by constraint (email or id); every other failure answers 500 with its message. |
| Users.CreateUser | Backend/usuarios.js:94-114 | A created user is appended under the next id with the sent name, email and password and no `updated_at`; creation succeeds exactly when neither the email nor the id is taken; any failure leaves the table unchanged. |
| Users.DuplicateEmailConflicts | Backend/usuarios.js:105-107 | Signing up twice with one email answers the second time with 409 and adds nothing. |
| Users.GetUser | Backend/usuarios.js:177-188 | Get never answers 404: an absent id answers `{}`, a present one a user with that id. |
| Users.Replace | Backend/usuarios.js:196-202 | The update statement rewrites and stamps exactly the users with that id. |
| Users.UpdateUser | Backend/usuarios.js:192-207 | An absent integer id answers `{}` with 200 whatever email is sent, and leaves the table unchanged. A present id answers 500 exactly when another user holds the sent email; otherwise the table becomes the one with that user rewritten and stamped, and the answer is the rewritten user. |
| Users.NothingReplaced | Backend/usuarios.js:196-203 | Updating an id nobody has changes no row. |
| Users.DeleteUser | Backend/usuarios.js:211-219 | Delete answers 204 on every integer id and removes exactly the users with it. The other users keep their order. |
| Users.DeleteAbsentIsNoOp | Backend/usuarios.js:211-215 | Deleting an id nobody has answers 204 and leaves the table as it was. |
| FollowUpView.FormOffersServerValues | frontend/src/seguimientos.js:10-23 | The form offers exactly the server's motives and statuses, in the same order. |
| FollowUpView.FilledFormPassesChecks | frontend/src/seguimientos.js:144 | A form with date, time, and a listed motive and status passes the server's checks. |
| FollowUpView.InitialFormIsIncomplete | frontend/src/seguimientos.js:29 | The form as it starts has no motive, so sending it is answered "Faltan campos obligatorios". |
| FollowUpView.WithoutSeg | frontend/src/seguimientos.js:127 | The local delete keeps, in order, exactly the entries with a different `id_seg`. |
| FollowUpView.WithoutSegRemovesExactly | frontend/src/seguimientos.js:126-127 | Nothing left has the deleted id, and every other entry stays. |
| FollowUpView.FollowUpScreen.OneViewShows | frontend/src/seguimientos.js:182-274 | In every reachable state exactly one of the lead view, the lead table and the all-follow-ups list shows. |
| FollowUpView.FollowUpScreen.ShownFollowUps | frontend/src/seguimientos.js:162 | The lead view shows the whole list; the all-follow-ups view shows one page of at most ten. |
| FollowUpView.FollowUpScreen.ShownLeads | frontend/src/seguimientos.js:163 | The lead table shows one page of at most ten leads. |
| FollowUpView.FollowUpScreen.constructor | frontend/src/seguimientos.js:26-34 | The screen starts with nothing selected, empty lists, the initial form and page 1. |
| FollowUpView.FollowUpScreen.BuscarRegistro | frontend/src/seguimientos.js:41-63 | A lead counts as found exactly on a truthy `id_reg`. Found selects it, hides the lead table and loads its follow-ups. Not found clears both and sends no second request. |
| FollowUpView.FollowUpScreen.MostrarTodos | frontend/src/seguimientos.js:65-75 | Loads the joined listing, clears the selection and hides the lead table. |
| FollowUpView.FollowUpScreen.MostrarTablaRegistros | frontend/src/seguimientos.js:77-87 | Loads every lead, shows the lead table and clears the selection. |
| FollowUpView.FollowUpScreen.EliminarSeguimiento | frontend/src/seguimientos.js:122-132 | Sends nothing unless confirmed; removes the entry locally only on an ok answer. |
| FollowUpView.FollowUpScreen.AgregarSeguimiento | frontend/src/seguimientos.js:134-160 | Sends nothing without a selected lead. Otherwise posts the form with the lead's id and user 1. On success reloads and resets the form; on failure keeps it. |
| FollowUpView.FollowUpScreen.PrevPage | frontend/src/seguimientos.js:306 | The page goes back by one but never below 1; nothing else changes. |
| FollowUpView.FollowUpScreen.NextPage | frontend/src/seguimientos.js:308 | The page advances only while items lie beyond it; nothing else changes. |
| FollowUpView.FollowUpScreen.PrevPageReg | frontend/src/seguimientos.js:211 | The lead-table page goes back by one but never below 1. |
| FollowUpView.FollowUpScreen.NextPageReg | frontend/src/seguimientos.js:213 | The lead-table page stays put exactly when no lead lies beyond it. |
| AttendanceView.FilterAttendance | frontend/src/Asistencia.js:44-49 | The shown list holds, in order, every record that passes both active filters. |
| AttendanceView.FiltersInTurnPass | frontend/src/Asistencia.js:45-48 | Applying the active filters one after the other, as the handler does, gives exactly that list. |
| AttendanceView.BothFilters | frontend/src/Asistencia.js:46-47 | With both filters set, records must start with the date and have the student id. |
| AttendanceView.NoFilterKeepsAll | frontend/src/Asistencia.js:45-48 | With both filters empty the whole list is shown. |
| AttendanceView.First10 | frontend/src/Asistencia.js:88 | `slice(0, 10)` keeps the first ten characters, or the whole text when shorter. |
| AttendanceView.AttendanceScreen.Paginados | frontend/src/Asistencia.js:23-27 | The page shows at most ten records, starting at `(currentPage - 1) * 10`. |
| AttendanceView.AttendanceScreen.constructor | frontend/src/Asistencia.js:9-23 | The screen starts with empty lists, the initial form, nothing edited and page 1. |
| AttendanceView.AttendanceScreen.FetchAll | frontend/src/Asistencia.js:32-42 | An ok answer replaces both lists; any failure keeps them and sets the load error. |
| AttendanceView.AttendanceScreen.HandleFilter | frontend/src/Asistencia.js:44-50 | The shown list becomes the filtered list and the page returns to 1. |
| AttendanceView.AttendanceScreen.HandleSubmit | frontend/src/Asistencia.js:52-72 | PUT to the record exactly when the form has an id, POST otherwise. The body has only student, date and status. Success reloads and resets; failure keeps the form and sets the error. |
| AttendanceView.AttendanceScreen.HandleDelete | frontend/src/Asistencia.js:74-82 | Nothing unless confirmed. Any answer to the delete triggers a reload; only a network failure sets the delete error. |
| AttendanceView.AttendanceScreen.HandleEditClick | frontend/src/Asistencia.js:84-92 | The record is copied into the form with its date cut to ten characters, and the edit panel toggles. |
| AttendanceView.AttendanceScreen.ResetForm | frontend/src/Asistencia.js:110-114 | Restores the initial form, clears the edited id and the error. |
| AttendanceView.AttendanceScreen.PrevPage | frontend/src/Asistencia.js:230 | `p - 1` unless the button is disabled on page 1. |
| AttendanceView.AttendanceScreen.NextPage | frontend/src/Asistencia.js:232 | `p + 1` unless the button is disabled on the last page. |
| AttendanceView.EditToggle | frontend/src/Asistencia.js:91 | Clicking the record being edited closes the panel; clicking another opens that one. |
| AttendanceView.EditClickTwiceCloses | frontend/src/Asistencia.js:91 | Two clicks on the same record open and then close its panel. |
| GradesView.MateriasDefault | frontend/src/Notas.js:87 | A student without grades gets an empty list of subjects; truthy grades are kept as sent. |
| GradesView.CollectionHasNoUndefined | frontend/src/Notas.js:6 | The collection address does not contain the text `undefined`. |
| GradesView.SubmitUpdatesSelected | frontend/src/Notas.js:106-114 | When a selected student implies the detail view, submit sends PUT to that student exactly when one is selected, and POST otherwise. |
| GradesView.FullNameIsNotDash | frontend/src/Notas.js:64 | A teacher's name cell is never the "—" placeholder. |
| GradesView.DocenteCell | frontend/src/Notas.js:54-64 | The teacher cell names the first teacher with the student's `id_docentes`; "—" exactly when there is none. |
| GradesView.AsistenciaCell | frontend/src/Notas.js:55-65 | The attendance cell is the status of the student's first record dated today; "—" when there is none. |
| GradesView.ExportRows | frontend/src/Notas.js:52-67 | The spreadsheet has one row per student, in order. |
| GradesView.TablePageIsExportPage | frontend/src/Notas.js:231-243 | Each page of the table is exactly that page of the spreadsheet. |
| GradesView.GradesScreen.TableRows | frontend/src/Notas.js:231-243 | The table shows at most ten student rows: the current page of the spreadsheet rows. |
| GradesView.GradesScreen.constructor | frontend/src/Notas.js:11-26 | The screen starts in the general view with empty lists, a blank form and page 1. |
| GradesView.GradesScreen.Mount | frontend/src/Notas.js:29-33 | Loads teachers and attendance, each falling back to an empty list when the request is rejected, then loads the students. |
| GradesView.GradesScreen.HandleGeneral | frontend/src/Notas.js:37-50 | On an ok answer: the general view with the loaded students, no error, nothing selected, a blank form. Otherwise only the error changes. |
| GradesView.GradesScreen.HandleSearch | frontend/src/Notas.js:75-101 | Does nothing on a blank id. Success opens the student in the detail view with its form; failure clears the selection and sets the error. |
| GradesView.GradesScreen.HandleSubmit | frontend/src/Notas.js:103-122 | Sends the form as chosen by the submit rule, and after an ok answer reloads the general view. |
| GradesView.GradesScreen.HandleDelete | frontend/src/Notas.js:124-135 | Sends nothing without a selected student or without confirmation. Otherwise deletes it, and after an ok answer reloads the general view. |
| GradesView.GradesScreen.ResetForm | frontend/src/Notas.js:137-139 | Every form field becomes blank and nothing else changes. |
| GradesView.GradesScreen.ChangeStudentId | frontend/src/Notas.js:150 | Typing sets the search text only. |
| GradesView.GradesScreen.ChangeField | frontend/src/Notas.js:167-192 | Typing in one input changes only that form field. |
| GradesView.GradesScreen.PrevPage | frontend/src/Notas.js:253 | The page goes back by one but never below 1. |
| GradesView.GradesScreen.NextPage | frontend/src/Notas.js:257 | The page goes forward by one but never past the page count. |
| PayrollView.Changed | frontend/src/Nomina.js:46-49 | Only the named field changes: a checkbox writes its flag, any other input its text. |
| PayrollView.FormFrom | frontend/src/Nomina.js:88-95 | The form loaded from a teacher has exactly the six fields, each as the teacher has it. |
| PayrollView.SubmitRequest | frontend/src/Nomina.js:54-60 | PUT to the edited teacher exactly when `editingId` is truthy, POST to the collection otherwise. |
| PayrollView.PaidColumnsAgree | frontend/src/Nomina.js:123 | The spreadsheet says "Sí" exactly for a truthy `pago_doc`, and the table marks the same teachers. |
| PayrollView.ExportRows | frontend/src/Nomina.js:116-125 | The spreadsheet has one row per teacher, in order. |
| PayrollView.ExportCountsPaid | frontend/src/Nomina.js:117-123 | The spreadsheet has as many "Sí" rows as teachers with a truthy `pago_doc`. |
| PayrollView.PayrollScreen.DocentesPagina | frontend/src/Nomina.js:133-134 | The page shows at most ten teachers, starting at `(currentPage - 1) * 10`. |
| PayrollView.PayrollScreen.constructor | frontend/src/Nomina.js:11-26 | The screen starts with empty lists, the initial form, nothing edited and page 1. |
| PayrollView.PayrollScreen.FetchData | frontend/src/Nomina.js:32-44 | Both lists are replaced only when both requests succeed. |
| PayrollView.PayrollScreen.HandleChange | frontend/src/Nomina.js:46-49 | The form takes the change to the one named field. |
| PayrollView.PayrollScreen.HandleSubmit | frontend/src/Nomina.js:51-67 | Sends PUT or POST by the submit rule, with a body that holds all six form fields. A field whose value is `undefined` is dropped when the body is serialised. Success reloads and resets the form; failure changes nothing. |
| PayrollView.PayrollScreen.HandleDelete | frontend/src/Nomina.js:69-80 | Nothing unless confirmed. A successful delete reloads and resets the form; a failed one changes nothing. |
| PayrollView.PayrollScreen.HandleSearch | frontend/src/Nomina.js:82-101 | Does nothing on a blank id. Success loads the six fields and the edited id; failure resets the form. |
| PayrollView.PayrollScreen.ResetForm | frontend/src/Nomina.js:103-114 | The initial form, no edited teacher and an empty search box. |
| PayrollView.PayrollScreen.ChangeSearchId | frontend/src/Nomina.js:147 | Typing sets the search text only. |
| PayrollView.PayrollScreen.PrevPage | frontend/src/Nomina.js:203 | The page goes back by one but never below 1. |
| PayrollView.PayrollScreen.NextPage | frontend/src/Nomina.js:205 | The page goes forward by one but never past the page count. |
| PayrollView.UnknownIdThenSubmitCreates | frontend/src/Nomina.js:85-87 | An unknown id is answered `{}`, which leaves the form without values and `editingId` falsy, so the next submit creates instead of updating. |
| PieChart.GroupKey | frontend/src/components/PieChart.js:43 | A null or undefined value goes to the placeholder group; any other value to its text. |
| PieChart.FirstOccurrences | frontend/src/components/PieChart.js:41-48 | The group keys in order of first appearance, each once, and exactly those of some row. |
| PieChart.RowAddsToOwnGroup | frontend/src/components/PieChart.js:47 | A row adds its contribution to its own group and to no other. |
| PieChart.NullGoesToPlaceholder | frontend/src/components/PieChart.js:43 | A row with a null or undefined value is counted under '–– vacío ––'. |
| PieChart.NothingFromNaNOrZero | frontend/src/components/PieChart.js:44-46 | In sum mode a value that converts to NaN or 0 changes no group. |
| PieChart.CountIsLength | frontend/src/components/PieChart.js:44-46 | In count mode every row adds exactly 1. |
| PieChart.GroupsSumToTotal | frontend/src/components/PieChart.js:41-48 | The groups together hold every row's contribution exactly once. |
| PieChart.ObjectKeys | frontend/src/components/PieChart.js:50 | `Object.keys` lists every key set, each once. |
| PieChart.ObjectKeysOrder | frontend/src/components/PieChart.js:50 | `Object.keys` puts array-index keys first in ascending order, then the other keys in the order they were first set. |
| PieChart.ValuesAt | frontend/src/components/PieChart.js:51 | `Object.values` gives one value per key, index-aligned with the keys. |
| PieChart.ChartValues | frontend/src/components/PieChart.js:50-51 | The slice values are index-aligned with the labels: value i is the total of label i's group. |
| PieChart.LabelsAreTheGroups | frontend/src/components/PieChart.js:50 | Every group is one label, each once. |
| PieChart.ValuesAreTheSlices | frontend/src/components/PieChart.js:50-51 | Reading a map holding exactly the group totals in label order gives the slice values. |
| PieChart.ChartSumsToTotal | frontend/src/components/PieChart.js:41-51 | The slices add up to the contributions of all rows. |
| PieChart.CountSlicesSumToRows | frontend/src/components/PieChart.js:41-51 | In count mode the slices add up to the number of rows. |
| PieChart.SelectNamesValueColOnlyToSum | frontend/src/components/PieChart.js:29 | The query selects the value column only in sum mode. |
| PieChart.Group | frontend/src/components/PieChart.js:41-48 | The loop leaves one entry per group, holding that group's total, and the keys in first-set order. |
| PieChart.PieChartState.constructor | frontend/src/components/PieChart.js:21-22 | The chart starts with no labels and no values. |
| PieChart.PieChartState.FetchData | frontend/src/components/PieChart.js:25-52 | On a query error the chart keeps what it showed. Otherwise the labels are the groups and the values their totals. |

## Left out

- The database engine. Each query is a function of the table's contents. Failures other than the ones modelled are not modelled: a lost connection, a rejected column type, a constraint hidden in the schema. NULL handling in `CONCAT` is not modelled. Foreign-key and NOT NULL constraints are not modelled, because the schema is not visible.
- FollowUpLog.ListAll, FollowUpLog.ListJoined, LeadStore.ListLeads, LeadStore.FindByPhone: the 500 answer of a failing query is left out. The same goes for a failing insert, update or delete, except where the handler branches on the error code.
- LeadStore.LeadTable.Create: always answers 201. The database's rejection of a field of the wrong type for its column is left out.
- Users.Login: answers only 200, 400 or 401. The 500 of a failing query (Backend/usuarios.js:269-271) is left out.
- The server has no delete, update or get-by-id for follow-ups. The client's delete request is modelled only as a request and its answer.
- `Backend/docentes.js`, `Backend/estudiantes.js`, `Backend/pagos.js` and `Backend/asistencia.js` are not part of this model. The dashboard receives their answers as parameters. `Backend/index.js` and `frontend/src/swagger.js` are not part of this model.
- The students screen asks `/api/asistencias`, while the server mounts `/api/asistencia`. The model keeps the address as written and treats the answer as a parameter.
- `fetch`, `axios`, `alert`, `window.confirm` and `console`. Each handler is one atomic step. Its answers, and the user's confirmation, are parameters. Async interleavings of two handlers are not modelled.
- Effects that re-run when state changes. The attendance filter effect re-runs after the date, the student id or the list changes. The pie chart's fetch re-runs when `table`, `groupBy`, `aggregate` or `valueCol` change. The mount effect of each screen runs once. The methods model one run; the caller composes the runs.
- The text inputs of the follow-up and attendance screens. Their `onChange` setters assign one field and are not modelled.
- The clock. "Today" and the moment of an update are parameters. The text of a promise rejection is a parameter too.
- Spreadsheet export (XLSX, file-saver), and the follow-up screen's two export mappings. Only the row mappings of the students and teachers screens are modelled. `toLocaleDateString` is not modelled.
- Numbers are integers. Floating point, fractions, exponents and the full `Number()` grammar (hexadecimal, `Infinity`) are not modelled. NaN is a conversion failure.
- PieChart.Contribution: sum mode adds integers, not floating-point values.
- JSON objects and arrays as property values are not modelled. A response body is an object, an array of objects, or a scalar.
- AttendanceView.AttendanceScreen.HandleEditClick requires a string `fecha`. The source's `slice` throws on any other value, and the crash is not modelled.
- AttendanceView.DateMatches: a non-string `fecha` is treated as no match; in the source, `startsWith` would throw.
- GradesView.GradesScreen.Mount: the teacher and attendance answers are arrays of objects. If the query behind either route fails, the server answers 500 with an `{ error }` object (Backend/docentes.js:101). The source stores that object as the list, and the render then throws at `docentes.map` or `docentes.find` (frontend/src/Notas.js:196, 234). Neither the error object as a list nor the crash is modelled.
- GradesView.AsistenciaCell (and the predicate GradesView.AttendedOn it searches with): a record whose `fecha` is not a string counts as not dated today. In the source, `fecha.split` throws on such a record as soon as `find` reaches it: in the export (frontend/src/Notas.js:55-57) before the student id is compared, in the table (frontend/src/Notas.js:235) only after the id matches. The crash is not modelled, and neither are GradesView.ExportRows and GradesView.GradesScreen.TableRows aborting with it.
- FollowUpLog and Db: `fecha` and `hora` are kept as the text the client sent, and `ORDER BY fecha DESC, hora DESC` compares them as text. PostgreSQL stores DATE and TIME values, orders them by value and returns them in canonical form. The model therefore matches the server only for canonical `YYYY-MM-DD` dates and zero-padded `HH:MM[:SS]` times. For other accepted spellings ("9:30" against "10:00") the listed order and the returned text differ from the server's.
- Db.IntegerInput: assumes PostgreSQL 15 or earlier, which reads `integer` input as decimal digits only. Version 16 and later also accept `0x`, `0o` and `0b` prefixes and `_` digit separators (`/api/registros/0x10` would read lead 16). The model answers 500 for such text.
- Property names that collide with `Object.prototype` members (`__proto__`, `toString`, `constructor`) are not modelled. The pie chart's `map[key] || 0` is modelled as a lookup with default 0. This is the same for integer totals.
- Js.IsWhitespace: the space separators of Unicode category Zs other than U+00A0, which `trim` also removes, are not modelled.
- The login, routing and display-only components (`Login.js`, `App.js`, `Sidebar.js`, `Header.js`, `MainLayout.js`, `Inicio.js`). They hold no modelled logic.
- Security: the password comparison is plain string equality, and no claim is made about it.
