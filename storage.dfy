/**
 * The browser's local storage, seen as an abstract map from key to stored
 * value, and the two operations that persist the clinic's collections under
 * three fixed keys. A stored value stands for the text JSON.stringify wrote;
 * the JSON encoding itself is not modelled.
 */
module Storage {
  import opened Wrappers
  import opened Records

  const PatientsKey: string := "patients"
  const AppointmentsKey: string := "appointments"
  const ExercisePlansKey: string := "exercisePlans"

  /** The three collections, in insertion order. */
  datatype Collections = Collections(patients: seq<Patient>, appointments: seq<Appointment>, exercisePlans: seq<ExercisePlan>)

  /** A JSON array of records of one kind. */
  datatype RecordArray =
    | PatientArray(patients: seq<Patient>)
    | AppointmentArray(appointments: seq<Appointment>)
    | ExercisePlanArray(exercisePlans: seq<ExercisePlan>)

  /** The text held under a key: empty, the JSON of a record array, or text JSON.parse rejects. */
  datatype Stored = EmptyText | Json(records: RecordArray) | NotJson

  /** The first key whose value could not be read, and why. */
  datatype LoadError =
    | SyntaxError(key: string)       // JSON.parse throws on the text
    | ShapeMismatch(key: string)     // records of another kind: outside this model

  type Store = map<string, Stored>

  function ArrayLength(a: RecordArray): nat {
    match a
    case PatientArray(ps) => |ps|
    case AppointmentArray(apps) => |apps|
    case ExercisePlanArray(es) => |es|
  }

  /** The key each kind of record array is saved under. */
  function KeyOf(a: RecordArray): string {
    match a
    case PatientArray(_) => PatientsKey
    case AppointmentArray(_) => AppointmentsKey
    case ExercisePlanArray(_) => ExercisePlansKey
  }

  /**
   * The value under key reads as that key's collection: the key is missing
   * or empty, or it holds an array that is empty or of the key's own kind.
   */
  predicate Readable(store: Store, key: string) {
    || key !in store
    || store[key] == EmptyText
    || (store[key].Json? && (ArrayLength(store[key].records) == 0 || KeyOf(store[key].records) == key))
  }

  /**
   * JSON.parse(getItem(key) || '[]'): a missing key and an empty string both
   * read as the empty array. None stands for an empty array, whose JSON text
   * is the same whatever kind of record it was written for.
   */
  function ReadArray(store: Store, key: string): (r: Result<Option<RecordArray>, LoadError>)
    ensures (key !in store || store[key] == EmptyText) ==> r == Ok(None)
    ensures r.Ok? && r.value.Some? ==> ArrayLength(r.value.value) > 0
    ensures key in store && store[key] == NotJson ==> r == Err(SyntaxError(key))
    ensures key in store && store[key].Json? ==>
              r == (if ArrayLength(store[key].records) == 0 then Ok(None) else Ok(Some(store[key].records)))
  {
    if key !in store then Ok(None)
    else match store[key]
      case EmptyText => Ok(None)
      case NotJson => Err(SyntaxError(key))
      case Json(a) => if ArrayLength(a) == 0 then Ok(None) else Ok(Some(a))
  }

  /** The patients key: missing or empty reads as [], a patient array as itself, anything else fails. */
  function ReadPatients(store: Store): (r: Result<seq<Patient>, LoadError>)
    ensures r.Ok? <==> Readable(store, PatientsKey)
    ensures r.Err? ==> r.error.key == PatientsKey
    ensures PatientsKey !in store || store[PatientsKey] == EmptyText ==> r == Ok([])
    ensures PatientsKey in store && store[PatientsKey].Json? && ArrayLength(store[PatientsKey].records) == 0 ==> r == Ok([])
    ensures PatientsKey in store && store[PatientsKey].Json? && store[PatientsKey].records.PatientArray? ==>
              r == Ok(store[PatientsKey].records.patients)
  {
    var a :- ReadArray(store, PatientsKey);
    match a
    case None => Ok([])
    case Some(PatientArray(ps)) => Ok(ps)
    case Some(_) => Err(ShapeMismatch(PatientsKey))
  }

  /** The appointments key, read the same way. */
  function ReadAppointments(store: Store): (r: Result<seq<Appointment>, LoadError>)
    ensures r.Ok? <==> Readable(store, AppointmentsKey)
    ensures r.Err? ==> r.error.key == AppointmentsKey
    ensures AppointmentsKey !in store || store[AppointmentsKey] == EmptyText ==> r == Ok([])
    ensures AppointmentsKey in store && store[AppointmentsKey].Json? && ArrayLength(store[AppointmentsKey].records) == 0 ==> r == Ok([])
    ensures AppointmentsKey in store && store[AppointmentsKey].Json? && store[AppointmentsKey].records.AppointmentArray? ==>
              r == Ok(store[AppointmentsKey].records.appointments)
  {
    var a :- ReadArray(store, AppointmentsKey);
    match a
    case None => Ok([])
    case Some(AppointmentArray(apps)) => Ok(apps)
    case Some(_) => Err(ShapeMismatch(AppointmentsKey))
  }

  /** The exercise-plans key, read the same way. */
  function ReadExercisePlans(store: Store): (r: Result<seq<ExercisePlan>, LoadError>)
    ensures r.Ok? <==> Readable(store, ExercisePlansKey)
    ensures r.Err? ==> r.error.key == ExercisePlansKey
    ensures ExercisePlansKey !in store || store[ExercisePlansKey] == EmptyText ==> r == Ok([])
    ensures ExercisePlansKey in store && store[ExercisePlansKey].Json? && ArrayLength(store[ExercisePlansKey].records) == 0 ==> r == Ok([])
    ensures ExercisePlansKey in store && store[ExercisePlansKey].Json? && store[ExercisePlansKey].records.ExercisePlanArray? ==>
              r == Ok(store[ExercisePlansKey].records.exercisePlans)
  {
    var a :- ReadArray(store, ExercisePlansKey);
    match a
    case None => Ok([])
    case Some(ExercisePlanArray(es)) => Ok(es)
    case Some(_) => Err(ShapeMismatch(ExercisePlansKey))
  }

  /**
   * loadData's three reads, in the source's order; the first that fails
   * aborts the whole load. Keys that are missing or empty read as empty
   * collections; so does a store that holds none of the three keys.
   */
  function Load(store: Store): (r: Result<Collections, LoadError>)
    ensures (forall k | k in {PatientsKey, AppointmentsKey, ExercisePlansKey} :: k !in store || store[k] == EmptyText)
            ==> r == Ok(Collections([], [], []))
    ensures r.Err? ==> r.error.key in {PatientsKey, AppointmentsKey, ExercisePlansKey}
                       && r.error.key in store && store[r.error.key] != EmptyText
    ensures r.Ok? <==> Readable(store, PatientsKey) && Readable(store, AppointmentsKey) && Readable(store, ExercisePlansKey)
    // the failure reported is the first key, in the source's order, that does not read
    ensures r.Err? ==> !Readable(store, r.error.key)
    ensures r.Err? && r.error.key != PatientsKey ==> Readable(store, PatientsKey)
    ensures r.Err? && r.error.key == ExercisePlansKey ==> Readable(store, AppointmentsKey)
    // per key, whatever the other keys hold
    ensures r.Ok? && (PatientsKey !in store || store[PatientsKey] == EmptyText) ==> r.value.patients == []
    ensures r.Ok? && PatientsKey in store && store[PatientsKey].Json? && ArrayLength(store[PatientsKey].records) == 0 ==> r.value.patients == []
    ensures r.Ok? && (AppointmentsKey !in store || store[AppointmentsKey] == EmptyText) ==> r.value.appointments == []
    ensures r.Ok? && AppointmentsKey in store && store[AppointmentsKey].Json? && ArrayLength(store[AppointmentsKey].records) == 0 ==> r.value.appointments == []
    ensures r.Ok? && (ExercisePlansKey !in store || store[ExercisePlansKey] == EmptyText) ==> r.value.exercisePlans == []
    ensures r.Ok? && ExercisePlansKey in store && store[ExercisePlansKey].Json? && ArrayLength(store[ExercisePlansKey].records) == 0 ==> r.value.exercisePlans == []
    ensures r.Ok? && PatientsKey in store && store[PatientsKey].Json? && store[PatientsKey].records.PatientArray? ==>
              r.value.patients == store[PatientsKey].records.patients
    ensures r.Ok? && AppointmentsKey in store && store[AppointmentsKey].Json? && store[AppointmentsKey].records.AppointmentArray? ==>
              r.value.appointments == store[AppointmentsKey].records.appointments
    ensures r.Ok? && ExercisePlansKey in store && store[ExercisePlansKey].Json? && store[ExercisePlansKey].records.ExercisePlanArray? ==>
              r.value.exercisePlans == store[ExercisePlansKey].records.exercisePlans
  {
    var ps :- ReadPatients(store);
    var apps :- ReadAppointments(store);
    var es :- ReadExercisePlans(store);
    Ok(Collections(ps, apps, es))
  }

  /**
   * saveData: each collection written under its own key, every other key left
   * as it was; loading afterwards gives the three collections back unchanged.
   */
  function Save(store: Store, c: Collections): (r: Store)
    ensures Load(r) == Ok(c)
    ensures r.Keys == store.Keys + {PatientsKey, AppointmentsKey, ExercisePlansKey}
    ensures forall k | k in store && k !in {PatientsKey, AppointmentsKey, ExercisePlansKey} :: r[k] == store[k]
  {
    store[PatientsKey := Json(PatientArray(c.patients))]
         [AppointmentsKey := Json(AppointmentArray(c.appointments))]
         [ExercisePlansKey := Json(ExercisePlanArray(c.exercisePlans))]
  }

  /** A key holding text JSON.parse rejects makes the load fail. */
  lemma LoadRejectsNotJson(store: Store, key: string)
    requires key in {PatientsKey, AppointmentsKey, ExercisePlansKey}
    requires key in store && store[key] == NotJson
    ensures Load(store).Err?
  {
  }
}
