/**
 * What the page shows: the cells of a table row, the text of a list item and
 * of a count label, the page elements the script writes to, the renderers
 * that repaint them from a collection, and the section switcher. Markup and
 * styling are not modelled; a table body is its rows of cell texts.
 */
module Views {
  import opened Wrappers
  import opened Text
  import opened Records

  /** f applied to each element of xs, in order. */
  function Each<T, U>(f: T -> U, xs: seq<T>): (r: seq<U>)
    ensures |r| == |xs|
    ensures forall i | 0 <= i < |xs| :: r[i] == f(xs[i])
  {
    if xs == [] then [] else [f(xs[0])] + Each(f, xs[1..])
  }

  /** The cells of a patient row: name, age as the template literal prints it, condition, notes. */
  function PatientCells(p: Patient): (r: seq<string>)
    ensures |r| == 4 && r[0] == p.name && r[2] == p.condition && r[3] == p.notes
    ensures r[1] == DecimalText(p.age) && ParseInt10(r[1]) == Some(p.age)
  {
    ParseDecimal(p.age);
    [p.name, DecimalText(p.age), p.condition, p.notes]
  }

  /** The cells of an appointment row; formatDate stands for the locale formatting of the stored date. */
  function AppointmentCells(a: Appointment, formatDate: string -> string): (r: seq<string>)
    ensures |r| == 3 && r[0] == a.patient && r[1] == formatDate(a.date) && r[2] == a.notes
    ensures WellFormedAppointment(a) ==> AppointmentFromForm(r[0], a.date, r[2]) == Some(a)
  {
    [a.patient, formatDate(a.date), a.notes]
  }

  /** The text of an exercise-list item: the patient, a colon and a blank, then the plan. */
  function ExerciseItem(e: ExercisePlan): (r: string)
    ensures |r| == |e.patient| + 2 + |e.plan|
    ensures r[..|e.patient|] == e.patient && r[|e.patient|..|e.patient| + 2] == ": " && r[|e.patient| + 2..] == e.plan
  {
    e.patient + ": " + e.plan
  }

  /** One row per patient, in order. */
  function PatientRows(patients: seq<Patient>): (r: seq<seq<string>>)
    ensures |r| == |patients| && forall i | 0 <= i < |patients| :: r[i] == PatientCells(patients[i])
  {
    Each(PatientCells, patients)
  }

  /** One row per appointment, in order. */
  function AppointmentRows(appointments: seq<Appointment>, formatDate: string -> string): (r: seq<seq<string>>)
    ensures |r| == |appointments| && forall i | 0 <= i < |appointments| :: r[i] == AppointmentCells(appointments[i], formatDate)
  {
    Each((a: Appointment) => AppointmentCells(a, formatDate), appointments)
  }

  /** One item per plan, in order. */
  function ExerciseItems(plans: seq<ExercisePlan>): (r: seq<string>)
    ensures |r| == |plans| && forall i | 0 <= i < |plans| :: r[i] == ExerciseItem(plans[i])
  {
    Each(ExerciseItem, plans)
  }

  const PatientsLabel: string := "Patients: "
  const AppointmentsLabel: string := "Appointments: "
  const ExercisePlansLabel: string := "Exercise Plans: "

  /** A count label: its prefix, then the count in decimal. */
  function CountLabel(prefix: string, n: nat): (r: string)
    ensures |r| > |prefix| && r[..|prefix|] == prefix
    ensures AllDigits(r[|prefix|..]) && (r[|prefix|] == '0' <==> n == 0)
    ensures r[|prefix|..] == DecimalText(n)
  {
    prefix + DecimalText(n)
  }

  /** A count label starts with its prefix, and parseInt reads the count back from the rest. */
  lemma CountLabelReadsBack(prefix: string, n: nat)
    ensures var shown := CountLabel(prefix, n);
            |shown| > |prefix| && shown[..|prefix|] == prefix && ParseInt10(shown[|prefix|..]) == Some(n)
  {
    ParseDecimal(n);
    assert CountLabel(prefix, n)[|prefix|..] == DecimalText(n);
  }

  /** A patient row typed back into the patient form yields the same patient. */
  lemma PatientRowReadsBack(p: Patient)
    requires WellFormedPatient(p)
    ensures var cells := PatientCells(p);
            PatientFromForm(cells[0], cells[1], cells[2], cells[3]) == Some(p)
  {
    PatientFormRoundTrip(p);
  }

  /** The text of s up to its first colon. */
  function TextBeforeColon(s: string): (r: string)
    ensures |r| <= |s| && r == s[..|r|] && ':' !in r
  {
    if s == [] || s[0] == ':' then [] else [s[0]] + TextBeforeColon(s[1..])
  }

  /**
   * When the patient name holds no colon, an exercise item splits back into
   * the patient (the text before the first colon) and the plan (the text
   * after the ": " that follows it).
   */
  lemma {:induction false} ExerciseItemSplits(e: ExercisePlan)
    requires ':' !in e.patient
    ensures TextBeforeColon(ExerciseItem(e)) == e.patient
    ensures ExerciseItem(e)[|e.patient| + 2..] == e.plan
    decreases |e.patient|
  {
    if e.patient != [] {
      var rest := ExercisePlan(e.patient[1..], e.plan);
      ExerciseItemSplits(rest);
      assert ExerciseItem(e)[1..] == ExerciseItem(rest);
    }
  }

  /** A new record shows as one new row after the rows already shown. */
  lemma PatientRowsAppend(patients: seq<Patient>, p: Patient)
    ensures PatientRows(patients + [p]) == PatientRows(patients) + [PatientCells(p)]
  {
    var longer, shown := PatientRows(patients + [p]), PatientRows(patients) + [PatientCells(p)];
    forall i | 0 <= i < |longer| ensures longer[i] == shown[i] {
      assert (patients + [p])[i] == if i < |patients| then patients[i] else p;
    }
  }

  lemma AppointmentRowsAppend(appointments: seq<Appointment>, a: Appointment, formatDate: string -> string)
    ensures AppointmentRows(appointments + [a], formatDate) == AppointmentRows(appointments, formatDate) + [AppointmentCells(a, formatDate)]
  {
    var longer := AppointmentRows(appointments + [a], formatDate);
    var shown := AppointmentRows(appointments, formatDate) + [AppointmentCells(a, formatDate)];
    forall i | 0 <= i < |longer| ensures longer[i] == shown[i] {
      assert (appointments + [a])[i] == if i < |appointments| then appointments[i] else a;
    }
  }

  lemma ExerciseItemsAppend(plans: seq<ExercisePlan>, e: ExercisePlan)
    ensures ExerciseItems(plans + [e]) == ExerciseItems(plans) + [ExerciseItem(e)]
  {
    var longer, shown := ExerciseItems(plans + [e]), ExerciseItems(plans) + [ExerciseItem(e)];
    forall i | 0 <= i < |longer| ensures longer[i] == shown[i] {
      assert (plans + [e])[i] == if i < |plans| then plans[i] else e;
    }
  }

  /** A table's tbody: its rows, each a sequence of cell texts. */
  class TableBody {
    var rows: seq<seq<string>>

    constructor (rows: seq<seq<string>>)
      ensures this.rows == rows
    {
      this.rows := rows;
    }
  }

  /** A list element: the text of each item. */
  class ItemList {
    var items: seq<string>

    constructor (items: seq<string>)
      ensures this.items == items
    {
      this.items := items;
    }
  }

  /** An element whose text content the script sets. */
  class TextElement {
    var text: string

    constructor (text: string)
      ensures this.text == text
    {
      this.text := text;
    }
  }

  /** A top-level page section; active is its "active" class. */
  class Section {
    const id: string
    var active: bool

    constructor (id: string, active: bool)
      ensures this.id == id && this.active == active
    {
      this.id := id;
      this.active := active;
    }
  }

  /** updatePatientTable: clear the body, then append one row per patient, in order. */
  method RenderPatientTable(tbody: TableBody, patients: seq<Patient>)
    modifies tbody
    ensures tbody.rows == PatientRows(patients)
  {
    tbody.rows := [];
    for i := 0 to |patients|
      invariant tbody.rows == PatientRows(patients[..i])
    {
      PatientRowsAppend(patients[..i], patients[i]);
      assert patients[..i + 1] == patients[..i] + [patients[i]];
      tbody.rows := tbody.rows + [PatientCells(patients[i])];
    }
    assert patients[..|patients|] == patients;
  }

  /** updateAppointmentTable: clear the body, then append one row per appointment, in order. */
  method RenderAppointmentTable(tbody: TableBody, appointments: seq<Appointment>, formatDate: string -> string)
    modifies tbody
    ensures tbody.rows == AppointmentRows(appointments, formatDate)
  {
    tbody.rows := [];
    for i := 0 to |appointments|
      invariant tbody.rows == AppointmentRows(appointments[..i], formatDate)
    {
      AppointmentRowsAppend(appointments[..i], appointments[i], formatDate);
      assert appointments[..i + 1] == appointments[..i] + [appointments[i]];
      tbody.rows := tbody.rows + [AppointmentCells(appointments[i], formatDate)];
    }
    assert appointments[..|appointments|] == appointments;
  }

  /** updateExerciseList: clear the list, then append one item per plan, in order. */
  method RenderExerciseList(list: ItemList, plans: seq<ExercisePlan>)
    modifies list
    ensures list.items == ExerciseItems(plans)
  {
    list.items := [];
    for i := 0 to |plans|
      invariant list.items == ExerciseItems(plans[..i])
    {
      ExerciseItemsAppend(plans[..i], plans[i]);
      assert plans[..i + 1] == plans[..i] + [plans[i]];
      list.items := list.items + [ExerciseItem(plans[i])];
    }
    assert plans[..|plans|] == plans;
  }

  /** The active flag each section would have if exactly the sections with the given id were active. */
  function Selected(ids: seq<string>, id: string): (r: seq<bool>)
    ensures |r| == |ids|
    ensures forall i | 0 <= i < |ids| :: r[i] == (ids[i] == id)
  {
    if ids == [] then [] else [ids[0] == id] + Selected(ids[1..], id)
  }

  function CountTrue(flags: seq<bool>): nat {
    if flags == [] then 0 else (if flags[0] then 1 else 0) + CountTrue(flags[1..])
  }

  predicate DistinctIds(ids: seq<string>) {
    forall i, j | 0 <= i < j < |ids| :: ids[i] != ids[j]
  }

  /**
   * With distinct section ids, selecting an id activates exactly one section
   * when some section has it and none otherwise.
   */
  lemma {:induction false} SelectedCount(ids: seq<string>, id: string)
    requires DistinctIds(ids)
    ensures CountTrue(Selected(ids, id)) == if id in ids then 1 else 0
  {
    if ids != [] {
      var s := Selected(ids, id);
      assert s[1..] == Selected(ids[1..], id);
      SelectedCount(ids[1..], id);
      if ids[0] == id {
        assert id !in ids[1..] by {
          forall j | 0 <= j < |ids| - 1 ensures ids[1..][j] != id {
            assert ids[0] != ids[j + 1];
          }
        }
      } else {
        assert id in ids <==> id in ids[1..] by {
          if id in ids {
            var j :| 0 <= j < |ids| && ids[j] == id;
            assert ids[1..][j - 1] == id;
          }
        }
      }
    }
  }

  function Ids(sections: seq<Section>): (r: seq<string>)
    ensures |r| == |sections|
    ensures forall i | 0 <= i < |sections| :: r[i] == sections[i].id
  {
    if sections == [] then [] else [sections[0].id] + Ids(sections[1..])
  }

  function Activity(sections: seq<Section>): (r: seq<bool>)
    reads set s | s in sections
    ensures |r| == |sections|
    ensures forall i | 0 <= i < |sections| :: r[i] == sections[i].active
  {
    if sections == [] then [] else [sections[0].active] + Activity(sections[1..])
  }

  /** showSection: every section is active exactly when its id is the requested one. */
  method ShowSection(sections: seq<Section>, id: string)
    modifies set s | s in sections
    ensures forall i | 0 <= i < |sections| :: sections[i].active == (sections[i].id == id)
    ensures Activity(sections) == Selected(Ids(sections), id)
  {
    for i := 0 to |sections|
      invariant forall k | 0 <= k < i :: sections[k].active == (sections[k].id == id)
    {
      sections[i].active := sections[i].id == id;
    }
  }
}
