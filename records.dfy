/**
 * The three record kinds of the clinic and the validation each form applies
 * before a record is built: text fields are trimmed, the age is read with
 * parseInt(…, 10), and a missing required field rejects the submission.
 */
module Records {
  import opened Wrappers
  import opened Text

  datatype Patient = Patient(name: string, age: int, condition: string, notes: string)

  /** The patient field is free text; it does not refer to a Patient record. */
  datatype Appointment = Appointment(patient: string, date: string, notes: string)

  datatype ExercisePlan = ExercisePlan(patient: string, plan: string)

  /** What an accepted patient form always yields: trimmed text, name and condition present. */
  predicate WellFormedPatient(p: Patient) {
    && p.name != [] && IsTrimmed(p.name)
    && p.condition != [] && IsTrimmed(p.condition)
    && IsTrimmed(p.notes)
  }

  /** The date is stored as typed; only the patient and the notes are trimmed. */
  predicate WellFormedAppointment(a: Appointment) {
    && a.patient != [] && IsTrimmed(a.patient)
    && a.date != []
    && IsTrimmed(a.notes)
  }

  predicate WellFormedExercisePlan(e: ExercisePlan) {
    && e.patient != [] && IsTrimmed(e.patient)
    && e.plan != [] && IsTrimmed(e.plan)
  }

  /**
   * The patient form: rejected (None) when the trimmed name is empty, the age
   * text is NaN to parseInt, or the trimmed condition is empty; the notes may
   * be empty.
   */
  function PatientFromForm(nameText: string, ageText: string, conditionText: string, notesText: string): (r: Option<Patient>)
    ensures r.Some? <==> Trim(nameText) != [] && ParseInt10(ageText).Some? && Trim(conditionText) != []
    ensures r.Some? ==> WellFormedPatient(r.value)
    ensures r.Some? ==> r.value.age == ParseInt10(ageText).value
    ensures r.Some? ==> r.value.name == Trim(nameText) && r.value.condition == Trim(conditionText)
                        && r.value.notes == Trim(notesText)
  {
    var name := Trim(nameText);
    var age := ParseInt10(ageText);
    var condition := Trim(conditionText);
    if name == [] || age.None? || condition == [] then None
    else Some(Patient(name, age.value, condition, Trim(notesText)))
  }

  /** The appointment form: rejected when the trimmed patient or the (untrimmed) date is empty. */
  function AppointmentFromForm(patientText: string, date: string, notesText: string): (r: Option<Appointment>)
    ensures r.Some? <==> Trim(patientText) != [] && date != []
    ensures r.Some? ==> WellFormedAppointment(r.value) && r.value.date == date
    ensures r.Some? ==> r.value.patient == Trim(patientText) && r.value.notes == Trim(notesText)
  {
    var patient := Trim(patientText);
    if patient == [] || date == [] then None
    else Some(Appointment(patient, date, Trim(notesText)))
  }

  /** The exercise-plan form: rejected when the trimmed patient or the trimmed plan is empty. */
  function ExercisePlanFromForm(patientText: string, planText: string): (r: Option<ExercisePlan>)
    ensures r.Some? <==> Trim(patientText) != [] && Trim(planText) != []
    ensures r.Some? ==> WellFormedExercisePlan(r.value)
    ensures r.Some? ==> r.value.patient == Trim(patientText) && r.value.plan == Trim(planText)
  {
    var patient := Trim(patientText);
    var plan := Trim(planText);
    if patient == [] || plan == [] then None
    else Some(ExercisePlan(patient, plan))
  }

  /**
   * A blank name, a blank condition or an age without leading digits rejects
   * the patient form, whatever the other fields hold.
   */
  lemma PatientFormRejects(nameText: string, ageText: string, conditionText: string, notesText: string)
    requires AllWhiteSpace(nameText) || ParseInt10(ageText).None? || AllWhiteSpace(conditionText)
    ensures PatientFromForm(nameText, ageText, conditionText, notesText) == None
  {
    TrimEmptyIff(nameText);
    TrimEmptyIff(conditionText);
  }

  /**
   * Filling the patient form from a well-formed record gives that record back,
   * however each field is padded with white space in front and behind, and
   * whatever non-digit tail follows the age.
   */
  lemma PatientFormAccepts(p: Patient, nameFront: string, nameBack: string, ageFront: string, ageTail: string,
                           conditionFront: string, conditionBack: string, notesFront: string, notesBack: string)
    requires WellFormedPatient(p)
    requires AllWhiteSpace(nameFront) && AllWhiteSpace(nameBack) && AllWhiteSpace(ageFront)
    requires AllWhiteSpace(conditionFront) && AllWhiteSpace(conditionBack)
    requires AllWhiteSpace(notesFront) && AllWhiteSpace(notesBack)
    requires ageTail == [] || !IsDigit(ageTail[0])
    ensures PatientFromForm(nameFront + p.name + nameBack, ageFront + DecimalText(p.age) + ageTail,
                            conditionFront + p.condition + conditionBack, notesFront + p.notes + notesBack) == Some(p)
  {
    TrimPadded(nameFront, p.name, nameBack);
    TrimPadded(conditionFront, p.condition, conditionBack);
    TrimPadded(notesFront, p.notes, notesBack);
    ParseDecimalText(ageFront, p.age, ageTail);
  }

  /** Filling the patient form with a well-formed record's own fields gives that record back. */
  lemma PatientFormRoundTrip(p: Patient)
    requires WellFormedPatient(p)
    ensures PatientFromForm(p.name, DecimalText(p.age), p.condition, p.notes) == Some(p)
  {
    ParseDecimal(p.age);
    TrimTrimmed(p.name);
    TrimTrimmed(p.condition);
    TrimTrimmed(p.notes);
  }

  lemma AppointmentFormRejects(patientText: string, date: string, notesText: string)
    requires AllWhiteSpace(patientText) || date == []
    ensures AppointmentFromForm(patientText, date, notesText) == None
  {
    TrimEmptyIff(patientText);
  }

  /**
   * Filling the appointment form from a well-formed record, each text field
   * padded with white space in front and behind, gives it back.
   */
  lemma AppointmentFormAccepts(a: Appointment, patientFront: string, patientBack: string,
                               notesFront: string, notesBack: string)
    requires WellFormedAppointment(a)
    requires AllWhiteSpace(patientFront) && AllWhiteSpace(patientBack)
    requires AllWhiteSpace(notesFront) && AllWhiteSpace(notesBack)
    ensures AppointmentFromForm(patientFront + a.patient + patientBack, a.date, notesFront + a.notes + notesBack) == Some(a)
  {
    TrimPadded(patientFront, a.patient, patientBack);
    TrimPadded(notesFront, a.notes, notesBack);
  }

  lemma ExercisePlanFormRejects(patientText: string, planText: string)
    requires AllWhiteSpace(patientText) || AllWhiteSpace(planText)
    ensures ExercisePlanFromForm(patientText, planText) == None
  {
    TrimEmptyIff(patientText);
    TrimEmptyIff(planText);
  }

  /**
   * Filling the exercise-plan form from a well-formed record, each field
   * padded with white space in front and behind, gives it back.
   */
  lemma ExercisePlanFormAccepts(e: ExercisePlan, patientFront: string, patientBack: string,
                                 planFront: string, planBack: string)
    requires WellFormedExercisePlan(e)
    requires AllWhiteSpace(patientFront) && AllWhiteSpace(patientBack)
    requires AllWhiteSpace(planFront) && AllWhiteSpace(planBack)
    ensures ExercisePlanFromForm(patientFront + e.patient + patientBack, planFront + e.plan + planBack) == Some(e)
  {
    TrimPadded(patientFront, e.patient, patientBack);
    TrimPadded(planFront, e.plan, planBack);
  }
}
