# Clinic record store — a Dafny model

PhysioRun is a single-page manager for a physical-therapy clinic. Its script keeps three
module-level arrays (patients, appointments, exercise plans). Three forms append to them
after a blank-field check. The arrays are persisted to the browser's local storage under
three fixed keys. Tables, a list and three count labels are repainted from them.

This project models that script, `script.js`, with the DOM taken out:

- `text.dfy` (module `Text`): the string primitives the forms use.
  - `String.prototype.trim`, over the full ECMAScript WhiteSpace and LineTerminator set.
  - `parseInt(…, 10)` as section 19.2.5 of ECMA-262 describes it. `None` stands for NaN.
  - The decimal text an integral Number gets inside a template literal.
- `records.dfy` (module `Records`): the three record kinds and the validation of each form.
  Each form becomes a function from the raw field texts to `Option<record>`.
- `storage.dfy` (module `Storage`): local storage as an abstract map from key to stored
  value, with `Save` (saveData) and `Load` (loadData's three reads).
- `views.dfy` (module `Views`): the cells of a table row, the text of a list item and of a
  count label. Also the page elements the script writes (classes with the fields it sets),
  the three renderers as loops that clear and refill a container, and `showSection`.
- `clinic.dfy` (module `Clinic`): the class `Clinic`. It holds the three collections, the
  storage map and the page elements. Its methods are the script's add, save, load,
  count-update and section functions.
- `scenarios.dfy` (module `Scenarios`): example scenarios, stated on the model.
- `wrappers.dfy` (module `Wrappers`): `Option` and `Result`.

A form submission is a method call with the field texts as arguments. It returns whether
the submission was accepted; the source shows an alert when it is not.

`loadData` falls back to `'[]'` only when a key is missing or holds the empty string
(script.js:182-184). On any other text that is not JSON, `JSON.parse` throws before any
collection is replaced (script.js:185-187). `Clinic.LoadData` returns `false` in that case
and changes nothing.

## Model

| member | source | states |
|---|---|---|
| Text.IsWhiteSpace | script.js:41-44 | the characters trim and parseInt skip are exactly the code points of the WhiteSpace and LineTerminator tables of ECMA-262, listed one by one |
| Text.TrimStart | script.js:41-44 | what it keeps starts with a character that is not white space, and everything it drops is white space |
| Text.TrimStartSuffix | script.js:41-44 | what TrimStart keeps is an unchanged suffix of the input |
| Text.TrimEnd | script.js:41-44 | what it keeps is an unchanged prefix that does not end in white space, and everything it drops is white space |
| Text.Trim | script.js:41-44 | the result of trim has white space at neither end and is no longer than the input |
| Text.TrimEmptyIff | script.js:47 | a trimmed field is empty exactly when every character of the raw field is white space |
| Text.TrimPadded | script.js:41-44 | trim removes white-space padding and nothing else: padding a trimmed string on both sides trims back to it |
| Text.TrimTrimmed | script.js:41-44 | trim leaves an already-trimmed string as it is |
| Text.DigitPrefix | script.js:42 | parseInt's digit run is the longest prefix of decimal digits |
| Text.DigitChar | script.js:75 | the character printed for a digit is a decimal digit that reads back as that digit |
| Text.NaturalText | script.js:75 | the printed form of a natural number is a non-empty run of decimal digits with no leading zero; it starts with '0' only for 0 |
| Text.DecimalText | script.js:75 | the text of an integer starts with '-' exactly when it is negative; the rest is a non-empty run of digits with no leading zero |
| Text.ParseInt10 | script.js:42 | parseInt gives a number (not NaN) exactly when, after the leading white space, a digit follows at most one sign; a negative result needs a '-' |
| Text.ParseSigned | script.js:42 | the same once the blanks are skipped: NaN exactly when no digit follows the optional sign; a '-' gives a result that is not positive, and only a '-' gives a negative one |
| Text.ParseDigits | script.js:42 | a value exactly when the text starts with a digit |
| Text.NaturalTextValue | script.js:75 | the digits printed for n have the value n |
| Text.DigitPrefixOfDigits | script.js:42 | parseInt's digit run over digits followed by a non-digit is exactly those digits |
| Text.ParseSkipsWhiteSpace | script.js:42 | leading white space changes neither the text parseInt reads nor its result |
| Text.ParseSignedValue | script.js:42 | after the blanks, one optional sign followed by text whose leading digit run has value v reads as v, negated only for '-' ("+30" is 30, "-007" is -7) |
| Text.ParseInt10Value | script.js:42 | the same from the raw text, with any leading white space before the sign |
| Text.ParseDigitsOfDigits | script.js:42 | a run of digits followed by a non-digit reads as the run's value |
| Text.ParseSignedUnsigned | script.js:42 | an unsigned run of digits with a non-digit tail reads as its value |
| Text.ParseNegativeDecimalText | script.js:42 | '-' and the digits of a negative integer, with a non-digit tail, read back as that integer |
| Text.ParseNaturalText | script.js:42 | the digits of a natural number, with a non-digit tail, form a digit run whose value is that number |
| Text.ParseNonNegativeDecimalText | script.js:42 | the digits of a natural number, with a non-digit tail, read back as that number |
| Text.ParseSignedDecimalText | script.js:42 | once the blanks are skipped, parseInt reads a printed integer back, ignoring a tail that starts with a non-digit |
| Text.ParseDecimal | script.js:42 | parseInt(String(n), 10) is n for every integer n |
| Text.ParseDecimalText | script.js:42 | parseInt reads back any printed integer, with leading white space and any non-digit tail |
| Text.ParseInt10LeadingBlank | script.js:42 | parseInt(" 42", 10) is 42 |
| Text.ParseInt10TrailingJunk | script.js:42 | parseInt("30abc", 10) is 30: trailing junk after the digits is accepted |
| Text.ParseInt10Negative | script.js:42 | parseInt("-5", 10) is -5 |
| Text.ParseInt10Plus | script.js:42 | parseInt(" +30", 10) is 30 |
| Text.ParseInt10Rejects | script.js:42 | parseInt gives NaN for "abc", "" and " -" |
| Records.PatientFromForm | script.js:41-53 | accepted exactly when the trimmed name is non-empty, the age is not NaN and the trimmed condition is non-empty; an accepted record is well formed, its name, condition and notes are the trimmed fields and its age is the parsed age |
| Records.PatientFormRejects | script.js:47-50 | a blank name, a blank condition or an age without leading digits rejects the form whatever the other fields hold |
| Records.PatientFormAccepts | script.js:41-53 | a well-formed patient typed into the form gives that patient back, whatever white space pads each field in front and behind and whatever non-digit tail follows the age |
| Records.PatientFormRoundTrip | script.js:41-53 | a well-formed patient's own fields typed into the form give that patient back |
| Records.AppointmentFromForm | script.js:89-98 | accepted exactly when the trimmed patient and the untrimmed date are non-empty; the record is well formed, its patient and notes are the trimmed fields and its date is exactly as typed |
| Records.AppointmentFormRejects | script.js:93-96 | a blank patient or an empty date rejects the appointment form |
| Records.AppointmentFormAccepts | script.js:89-98 | a well-formed appointment typed into the form gives it back, whatever white space pads each text field in front and behind |
| Records.ExercisePlanFromForm | script.js:132-138 | accepted exactly when the trimmed patient and the trimmed plan are non-empty; the record is well formed and its patient and plan are the trimmed fields |
| Records.ExercisePlanFormRejects | script.js:134-137 | a blank patient or a blank plan rejects the exercise-plan form |
| Records.ExercisePlanFormAccepts | script.js:132-138 | a well-formed plan typed into the form gives it back, whatever white space pads each field in front and behind |
| Storage.ReadArray | script.js:182-184 | a missing key and an empty string both read as the empty array; text that is not JSON is a syntax error naming the key; a stored array reads as itself, an empty one as the empty array |
| Storage.ReadPatients | script.js:182 | succeeds exactly when the key reads as patients; missing, empty or an empty array ("[]", of whatever kind) gives [], a patient array gives exactly those patients; a failure names the patients key |
| Storage.ReadAppointments | script.js:183 | the same for the appointments key |
| Storage.ReadExercisePlans | script.js:184 | the same for the exercise-plans key |
| Storage.Load | script.js:181-187 | succeeds exactly when all three keys read; per key, whatever the others hold, a missing or empty key and an empty array load [], and an array of the key's own kind loads as that array; a failure names the first key, in the source's order, that does not read |
| Storage.Save | script.js:172-176 | loading right after saving gives back exactly the saved collections; the three keys are set and every other key keeps its value |
| Storage.LoadRejectsNotJson | script.js:182-184 | text that is not JSON under one of the keys makes the load fail; there is no fail-open default |
| Views.PatientCells | script.js:73-78 | a patient row has four cells: the stored name, the age printed in decimal (exactly `DecimalText` of the age), the stored condition and the stored notes; parseInt reads the age back from the age cell |
| Views.AppointmentCells | script.js:117-121 | an appointment row has three cells: the stored patient, the formatted date and the stored notes; for a well-formed appointment the patient and notes cells typed back with the stored date give it back |
| Views.ExerciseItem | script.js:154 | an item is the patient, then ": ", then the plan |
| Views.PatientRows | script.js:71-80 | one row per patient, in order |
| Views.AppointmentRows | script.js:112-123 | one row per appointment, in order |
| Views.ExerciseItems | script.js:152-156 | one item per plan, in order |
| Views.CountLabel | script.js:164-166 | a count label is its prefix followed by exactly the count printed in decimal: a run of digits with no leading zero, "0" for an empty collection |
| Views.CountLabelReadsBack | script.js:164-166 | a count label is its prefix followed by text from which parseInt reads back the count |
| Views.PatientRowReadsBack | script.js:73-78 | a patient's row cells typed back into the patient form give the same patient |
| Views.ExerciseItemSplits | script.js:154 | an item "patient: plan" splits back into patient and plan at its first colon when the patient name holds no colon |
| Views.PatientRowsAppend | script.js:71-80 | one more patient shows as one more row after the rows already shown |
| Views.AppointmentRowsAppend | script.js:112-123 | one more appointment shows as one more row after the rows already shown |
| Views.ExerciseItemsAppend | script.js:152-156 | one more plan shows as one more item after the items already shown |
| Views.RenderPatientTable | script.js:66-81 | the table body afterwards holds one row per patient, in order, whatever it held before |
| Views.RenderAppointmentTable | script.js:109-124 | the table body afterwards holds one row per appointment, in order, whatever it held before |
| Views.RenderExerciseList | script.js:149-157 | the list afterwards holds one item per plan, in order, whatever it held before |
| Views.Selected | script.js:26-32 | the flag for each section is true exactly when its id is the requested one |
| Views.SelectedCount | script.js:24-33 | with distinct section ids, exactly one section is active when one has the id, and none otherwise |
| Views.ShowSection | script.js:24-33 | each section is active exactly when its id equals the requested id |
| Clinic.Clinic.constructor | script.js:9-11 | the collections start empty; the storage and the page elements are those given |
| Clinic.Clinic.SaveData | script.js:172-176 | the storage becomes Save of the old storage and the current collections, so a load would give them back |
| Clinic.Clinic.UpdateCounts | script.js:162-167 | each count label shows its prefix and its collection's length |
| Clinic.Clinic.AddPatient | script.js:39-61 | accepted exactly when the form is valid; then one trimmed record is appended to patients, the storage and the patient table and counts are updated; the other collections never change, a rejection changes nothing, and persisted, displayed and well-formed states are preserved |
| Clinic.Clinic.AddAppointment | script.js:87-104 | the same for appointments: one record appended on success, nothing changed on rejection, patients and plans untouched |
| Clinic.Clinic.AddExercisePlan | script.js:130-144 | the same for exercise plans: one record appended on success, nothing changed on rejection, patients and appointments untouched |
| Clinic.Clinic.AppendPatient | script.js:53-57 | pushes the record at the end of patients, saves all three collections, and repaints the patient table and the counts; appointments, plans and the other views are untouched |
| Clinic.Clinic.AppendAppointment | script.js:98-102 | pushes the record at the end of appointments, saves, and repaints the appointment table and the counts; patients, plans and the other views are untouched |
| Clinic.Clinic.AppendExercisePlan | script.js:138-142 | pushes the record at the end of the plans, saves, and repaints the exercise list and the counts; patients, appointments and the other views are untouched |
| Clinic.Clinic.PushPatient | script.js:54-55 | the patient is pushed at the end of patients and all three collections are saved, so a load gives them back; a well-formed record keeps the collections well formed |
| Clinic.Clinic.RepaintPatients | script.js:56-57 | the patient table shows one row per patient, in order, and every count label shows its collection's length |
| Clinic.Clinic.PushAppointment | script.js:99-100 | the appointment is pushed at the end of appointments and all three collections are saved, so a load gives them back; a well-formed record keeps the collections well formed |
| Clinic.Clinic.RepaintAppointments | script.js:101-102 | the appointment table shows one row per appointment, in order, and every count label shows its collection's length |
| Clinic.Clinic.PushExercisePlan | script.js:139-140 | the plan is pushed at the end of the plans and all three collections are saved, so a load gives them back; a well-formed record keeps the collections well formed |
| Clinic.Clinic.RepaintExercisePlans | script.js:141-142 | the exercise list shows one item per plan, in order, and every count label shows its collection's length |
| Clinic.Clinic.LoadData | script.js:181-192 | succeeds exactly when all three keys read; then the collections are what was stored and every view shows them; a failed read changes nothing |
| Clinic.Clinic.ShowSection | script.js:24-33 | each of the page's sections is active exactly when its id equals the requested id |
| Scenarios.AddAli | script.js:41-54 | the form "Ali", "30", "Back pain", "" gives that patient, shown as the row "Ali", "30", "Back pain", "" |
| Scenarios.AgeNotANumber | script.js:42-50 | an age of "abc" rejects the patient form |
| Scenarios.LoadSara | script.js:182-185 | a store holding only Sara under "patients" loads one patient and no other records; the patient label reads "Patients: 1" |

## Left out

- The DOM API calls are not modelled: `getElementById`, `querySelector`, `classList.add`/`remove`, `createElement`, `alert` and `form.reset()`. Their effects are: the `active` class is `Views.Section.active`, and the cell, item and label texts are fields of `Views.TableBody`, `Views.ItemList` and `Views.TextElement`. Form fields are string arguments; the alert is a `false` result. Clearing the form after a successful add is not modelled.
- The `DOMContentLoaded` handler (script.js:14-18) is not modelled, because it is event wiring. It runs `LoadData` and then `ShowSection("home")`; both are modelled.
- Appointment date display (`new Date(…).toLocaleString('ar-EG', …)`, script.js:115-116) is locale and time-zone formatting inside the browser. It is the parameter `formatDate` of the clinic, and the model says nothing about what it returns.
- HTML markup is not modelled. The `<tr>`/`<td>` markup built in `innerHTML` is left out, and a row is its sequence of cell texts. Field text that contains markup would be interpreted by `innerHTML`; the model treats it as plain text.
- The JSON encoding is not modelled. A stored value is abstract: the empty string, the JSON of an array of one record kind, or text `JSON.parse` rejects.
- Stored text that is valid JSON but not an array (`"null"`, `"{}"`, a number) is not modelled: a stored value is empty, an array or not JSON. For such text the script replaces the collection (script.js:185-187) and then throws in the renderer, which calls `forEach` on it.
- Storage.Load: a non-empty array of another record kind stored under a key is a `ShapeMismatch` error. The script would load those objects into the wrong collection; the model's typed records cannot hold them.
- Storage.Save: does not model `setItem` failing, such as a full storage quota.
- Text.ParseInt10: ages are unbounded integers. JavaScript's Number rounds above 2^53. A digit run long enough to overflow gives `Infinity`, which `isNaN` accepts and `JSON.stringify` writes as `null`. `"-0"` gives the Number -0, which prints as `0`; the model reads it as 0. A Number of 1e21 or more prints in exponent form (`"1e+21"`), so for such ages the age cell would not read back in JavaScript as `Views.PatientRowReadsBack` and `Views.PatientCells` state.
- Views.RenderPatientTable, Views.RenderAppointmentTable, Views.RenderExerciseList: in the script they read the module-level arrays. Here they take the collection as an argument, and the clinic passes its own.
- The appointment date's format is not checked: the code checks only that the date is non-empty, and so does the model.
