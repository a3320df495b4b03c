/** Example scenarios of the clinic, stated on the model. */
module Scenarios {
  import opened Wrappers
  import opened Text
  import opened Records
  import opened Storage
  import opened Views

  /** Adding Ali, 30, with back pain and no notes gives the table row "Ali | 30 | Back pain | ". */
  lemma AddAli()
    ensures PatientFromForm("Ali", "30", "Back pain", "") == Some(Patient("Ali", 30, "Back pain", ""))
    ensures PatientRows([Patient("Ali", 30, "Back pain", "")]) == [["Ali", "30", "Back pain", ""]]
  {
    var ali := Patient("Ali", 30, "Back pain", "");
    assert NaturalText(3) == "3";
    assert DecimalText(30) == "30";
    PatientFormRoundTrip(ali);
  }

  /** An age of "abc" is NaN to parseInt, so the patient form is rejected. */
  lemma AgeNotANumber(nameText: string, conditionText: string, notesText: string)
    ensures PatientFromForm(nameText, "abc", conditionText, notesText) == None
  {
  }

  /** A store holding only Sara under "patients" loads one patient and the label "Patients: 1". */
  lemma LoadSara()
    ensures var sara := Patient("Sara", 22, "Knee", "");
            Load(map[PatientsKey := Json(PatientArray([sara]))]) == Ok(Collections([sara], [], []))
    ensures CountLabel(PatientsLabel, 1) == "Patients: 1"
  {
  }
}
