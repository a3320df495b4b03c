/**
 * The clinic page's state: the three collections the script keeps in
 * module-level arrays, the local storage it persists them to, and the page
 * elements it repaints. Form submission handlers receive the raw field texts
 * and report whether the submission was accepted (the source shows an alert
 * instead of saving when it is not).
 */
module Clinic {
  import opened Wrappers
  import opened Records
  import opened Storage
  import opened Views

  class Clinic {
    var patients: seq<Patient>
    var appointments: seq<Appointment>
    var exercisePlans: seq<ExercisePlan>
    var storage: Store

    const patientTable: TableBody
    const appointmentTable: TableBody
    const exerciseList: ItemList
    const patientCount: TextElement
    const appointmentCount: TextElement
    const exerciseCount: TextElement
    const sections: seq<Section>
    /** The locale formatting of an appointment date, which the model does not look into. */
    const formatDate: string -> string

    /** The page's elements are distinct: writing one never changes another. */
    ghost predicate Valid() {
      && patientTable != appointmentTable
      && patientCount != appointmentCount
      && patientCount != exerciseCount
      && appointmentCount != exerciseCount
    }

    /** Every record in memory is one an accepted form could have built. */
    ghost predicate RecordsWellFormed()
      reads this
    {
      && (forall i | 0 <= i < |patients| :: WellFormedPatient(patients[i]))
      && (forall i | 0 <= i < |appointments| :: WellFormedAppointment(appointments[i]))
      && (forall i | 0 <= i < |exercisePlans| :: WellFormedExercisePlan(exercisePlans[i]))
    }

    function Snapshot(): Collections
      reads this
    {
      Collections(patients, appointments, exercisePlans)
    }

    /** What a load from storage would give back is the collections in memory. */
    ghost predicate Persisted()
      reads this
    {
      Load(storage) == Ok(Snapshot())
    }

    /** Every count label shows its collection's length. */
    ghost predicate CountsShown()
      reads this, patientCount, appointmentCount, exerciseCount
    {
      && patientCount.text == CountLabel(PatientsLabel, |patients|)
      && appointmentCount.text == CountLabel(AppointmentsLabel, |appointments|)
      && exerciseCount.text == CountLabel(ExercisePlansLabel, |exercisePlans|)
    }

    /** Every table, list and count label shows the current collections. */
    ghost predicate Displayed()
      reads this, patientTable, appointmentTable, exerciseList, patientCount, appointmentCount, exerciseCount
    {
      && patientTable.rows == PatientRows(patients)
      && appointmentTable.rows == AppointmentRows(appointments, formatDate)
      && exerciseList.items == ExerciseItems(exercisePlans)
      && CountsShown()
    }

    /** The page as loaded: empty collections (script.js:9-11), the storage and elements as found. */
    constructor (storage: Store, patientTable: TableBody, appointmentTable: TableBody, exerciseList: ItemList,
                 patientCount: TextElement, appointmentCount: TextElement, exerciseCount: TextElement,
                 sections: seq<Section>, formatDate: string -> string)
      requires patientTable != appointmentTable
      requires patientCount != appointmentCount && patientCount != exerciseCount && appointmentCount != exerciseCount
      ensures Valid() && RecordsWellFormed()
      ensures patients == [] && appointments == [] && exercisePlans == []
      ensures this.storage == storage
      ensures this.patientTable == patientTable && this.appointmentTable == appointmentTable
      ensures this.exerciseList == exerciseList
      ensures this.patientCount == patientCount && this.appointmentCount == appointmentCount
      ensures this.exerciseCount == exerciseCount
      ensures this.sections == sections && this.formatDate == formatDate
    {
      this.patients, this.appointments, this.exercisePlans := [], [], [];
      this.storage := storage;
      this.patientTable, this.appointmentTable, this.exerciseList := patientTable, appointmentTable, exerciseList;
      this.patientCount, this.appointmentCount, this.exerciseCount := patientCount, appointmentCount, exerciseCount;
      this.sections, this.formatDate := sections, formatDate;
    }

    /** saveData: all three collections written under their keys. */
    method SaveData()
      modifies this`storage
      ensures storage == Save(old(storage), Snapshot())
      ensures Persisted()
    {
      storage := Save(storage, Snapshot());
    }

    /** updateCounts: each label shows its prefix and its collection's length. */
    method UpdateCounts()
      requires Valid()
      modifies patientCount, appointmentCount, exerciseCount
      ensures CountsShown()
    {
      patientCount.text := CountLabel(PatientsLabel, |patients|);
      appointmentCount.text := CountLabel(AppointmentsLabel, |appointments|);
      exerciseCount.text := CountLabel(ExercisePlansLabel, |exercisePlans|);
    }

    /**
     * addPatient: validate the form; on success append the record, save,
     * repaint the patient table and the counts. A rejected form changes nothing.
     */
    method AddPatient(nameText: string, ageText: string, conditionText: string, notesText: string) returns (added: bool)
      requires Valid()
      modifies this, patientTable, patientCount, appointmentCount, exerciseCount
      ensures added <==> PatientFromForm(nameText, ageText, conditionText, notesText).Some?
      ensures added ==> patients == old(patients) + [PatientFromForm(nameText, ageText, conditionText, notesText).value]
      ensures appointments == old(appointments) && exercisePlans == old(exercisePlans)
      ensures added ==> storage == Save(old(storage), Snapshot()) && Persisted()
      ensures added ==> patientTable.rows == PatientRows(patients) && CountsShown()
      ensures !added ==> unchanged(this, patientTable, patientCount, appointmentCount, exerciseCount)
      ensures unchanged(appointmentTable, exerciseList)
      ensures old(Persisted()) ==> Persisted()
      ensures old(RecordsWellFormed()) ==> RecordsWellFormed()
      ensures old(Displayed()) ==> Displayed()
    {
      var patient := PatientFromForm(nameText, ageText, conditionText, notesText);
      if patient.None? {
        return false;
      }
      AppendPatient(patient.value);
      added := true;
    }

    /** The success path of the patient form: push, save, repaint the patients view and the counts. */
    method AppendPatient(r: Patient)
      requires Valid()
      modifies this, patientTable, patientCount, appointmentCount, exerciseCount
      ensures patients == old(patients) + [r]
      ensures appointments == old(appointments) && exercisePlans == old(exercisePlans)
      ensures storage == Save(old(storage), Snapshot()) && Persisted()
      ensures patientTable.rows == PatientRows(patients) && CountsShown()
      ensures unchanged(appointmentTable, exerciseList)
      ensures WellFormedPatient(r) && old(RecordsWellFormed()) ==> RecordsWellFormed()
      ensures old(Displayed()) ==> Displayed()
    {
      PushPatient(r);
      RepaintPatients();
    }

    /** The first half of the success path: push the record and save all three collections. */
    method PushPatient(r: Patient)
      modifies this`patients, this`storage
      ensures patients == old(patients) + [r]
      ensures storage == Save(old(storage), Snapshot()) && Persisted()
      ensures WellFormedPatient(r) && old(RecordsWellFormed()) ==> RecordsWellFormed()
    {
      patients := patients + [r];
      SaveData();
    }

    /** The second half of the success path: repaint the patient table and the counts. */
    method RepaintPatients()
      requires Valid()
      modifies patientTable, patientCount, appointmentCount, exerciseCount
      ensures patientTable.rows == PatientRows(patients) && CountsShown()
    {
      RenderPatientTable(patientTable, patients);
      UpdateCounts();
    }

    /**
     * addAppointment: validate the form; on success append the record, save,
     * repaint the appointment table and the counts. A rejected form changes nothing.
     */
    method AddAppointment(patientText: string, date: string, notesText: string) returns (added: bool)
      requires Valid()
      modifies this, appointmentTable, patientCount, appointmentCount, exerciseCount
      ensures added <==> AppointmentFromForm(patientText, date, notesText).Some?
      ensures added ==> appointments == old(appointments) + [AppointmentFromForm(patientText, date, notesText).value]
      ensures patients == old(patients) && exercisePlans == old(exercisePlans)
      ensures added ==> storage == Save(old(storage), Snapshot()) && Persisted()
      ensures added ==> appointmentTable.rows == AppointmentRows(appointments, formatDate) && CountsShown()
      ensures !added ==> unchanged(this, appointmentTable, patientCount, appointmentCount, exerciseCount)
      ensures unchanged(patientTable, exerciseList)
      ensures old(Persisted()) ==> Persisted()
      ensures old(RecordsWellFormed()) ==> RecordsWellFormed()
      ensures old(Displayed()) ==> Displayed()
    {
      var appointment := AppointmentFromForm(patientText, date, notesText);
      if appointment.None? {
        return false;
      }
      AppendAppointment(appointment.value);
      added := true;
    }

    /** The success path of the appointment form: push, save, repaint the appointments view and the counts. */
    method AppendAppointment(r: Appointment)
      requires Valid()
      modifies this, appointmentTable, patientCount, appointmentCount, exerciseCount
      ensures appointments == old(appointments) + [r]
      ensures patients == old(patients) && exercisePlans == old(exercisePlans)
      ensures storage == Save(old(storage), Snapshot()) && Persisted()
      ensures appointmentTable.rows == AppointmentRows(appointments, formatDate) && CountsShown()
      ensures unchanged(patientTable, exerciseList)
      ensures WellFormedAppointment(r) && old(RecordsWellFormed()) ==> RecordsWellFormed()
      ensures old(Displayed()) ==> Displayed()
    {
      PushAppointment(r);
      RepaintAppointments();
    }

    /** The first half of the success path: push the record and save all three collections. */
    method PushAppointment(r: Appointment)
      modifies this`appointments, this`storage
      ensures appointments == old(appointments) + [r]
      ensures storage == Save(old(storage), Snapshot()) && Persisted()
      ensures WellFormedAppointment(r) && old(RecordsWellFormed()) ==> RecordsWellFormed()
    {
      appointments := appointments + [r];
      SaveData();
    }

    /** The second half of the success path: repaint the appointment table and the counts. */
    method RepaintAppointments()
      requires Valid()
      modifies appointmentTable, patientCount, appointmentCount, exerciseCount
      ensures appointmentTable.rows == AppointmentRows(appointments, formatDate) && CountsShown()
    {
      RenderAppointmentTable(appointmentTable, appointments, formatDate);
      UpdateCounts();
    }

    /**
     * addExercisePlan: validate the form; on success append the record, save,
     * repaint the exercise list and the counts. A rejected form changes nothing.
     */
    method AddExercisePlan(patientText: string, planText: string) returns (added: bool)
      requires Valid()
      modifies this, exerciseList, patientCount, appointmentCount, exerciseCount
      ensures added <==> ExercisePlanFromForm(patientText, planText).Some?
      ensures added ==> exercisePlans == old(exercisePlans) + [ExercisePlanFromForm(patientText, planText).value]
      ensures patients == old(patients) && appointments == old(appointments)
      ensures added ==> storage == Save(old(storage), Snapshot()) && Persisted()
      ensures added ==> exerciseList.items == ExerciseItems(exercisePlans) && CountsShown()
      ensures !added ==> unchanged(this, exerciseList, patientCount, appointmentCount, exerciseCount)
      ensures unchanged(patientTable, appointmentTable)
      ensures old(Persisted()) ==> Persisted()
      ensures old(RecordsWellFormed()) ==> RecordsWellFormed()
      ensures old(Displayed()) ==> Displayed()
    {
      var plan := ExercisePlanFromForm(patientText, planText);
      if plan.None? {
        return false;
      }
      AppendExercisePlan(plan.value);
      added := true;
    }

    /** The success path of the exercisePlan form: push, save, repaint the exercisePlans view and the counts. */
    method AppendExercisePlan(r: ExercisePlan)
      requires Valid()
      modifies this, exerciseList, patientCount, appointmentCount, exerciseCount
      ensures exercisePlans == old(exercisePlans) + [r]
      ensures patients == old(patients) && appointments == old(appointments)
      ensures storage == Save(old(storage), Snapshot()) && Persisted()
      ensures exerciseList.items == ExerciseItems(exercisePlans) && CountsShown()
      ensures unchanged(patientTable, appointmentTable)
      ensures WellFormedExercisePlan(r) && old(RecordsWellFormed()) ==> RecordsWellFormed()
      ensures old(Displayed()) ==> Displayed()
    {
      PushExercisePlan(r);
      RepaintExercisePlans();
    }

    /** The first half of the success path: push the record and save all three collections. */
    method PushExercisePlan(r: ExercisePlan)
      modifies this`exercisePlans, this`storage
      ensures exercisePlans == old(exercisePlans) + [r]
      ensures storage == Save(old(storage), Snapshot()) && Persisted()
      ensures WellFormedExercisePlan(r) && old(RecordsWellFormed()) ==> RecordsWellFormed()
    {
      exercisePlans := exercisePlans + [r];
      SaveData();
    }

    /** The second half of the success path: repaint the exercise list and the counts. */
    method RepaintExercisePlans()
      requires Valid()
      modifies exerciseList, patientCount, appointmentCount, exerciseCount
      ensures exerciseList.items == ExerciseItems(exercisePlans) && CountsShown()
    {
      RenderExerciseList(exerciseList, exercisePlans);
      UpdateCounts();
    }

    /**
     * loadData: read the three keys; when every read succeeds, replace the
     * collections and repaint everything. A failed read (JSON.parse throwing)
     * aborts before any collection is replaced.
     */
    method LoadData() returns (loaded: bool)
      requires Valid()
      modifies this, patientTable, appointmentTable, exerciseList, patientCount, appointmentCount, exerciseCount
      ensures storage == old(storage)
      ensures loaded <==> Load(storage).Ok?
      ensures loaded ==> Snapshot() == Load(storage).value && Persisted() && Displayed()
      ensures !loaded ==> unchanged(this, patientTable, appointmentTable, exerciseList, patientCount, appointmentCount, exerciseCount)
    {
      var stored := Load(storage);
      if stored.Err? {
        return false;
      }
      patients, appointments, exercisePlans := stored.value.patients, stored.value.appointments, stored.value.exercisePlans;
      RenderPatientTable(patientTable, patients);
      RenderAppointmentTable(appointmentTable, appointments, formatDate);
      RenderExerciseList(exerciseList, exercisePlans);
      UpdateCounts();
      loaded := true;
    }

    /** showSection over the page's sections. */
    method ShowSection(id: string)
      modifies set s | s in sections
      ensures forall i | 0 <= i < |sections| :: sections[i].active == (sections[i].id == id)
      ensures Activity(sections) == Selected(Ids(sections), id)
    {
      Views.ShowSection(sections, id);
    }
  }
}
