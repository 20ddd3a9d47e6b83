/**
  The data store of the medical-office application: five collections of
  records (patients, appointments, supplies, absences, users), with
  add/update/delete per collection, the patient-to-appointment cascade,
  and whole-store export, import and reset.
 */
module DataContext {
  import opened Wrappers
  import opened Records

  /** The five collections at one instant. */
  datatype Collections = Collections(
    patients: seq<Record>,
    appointments: seq<Record>,
    supplies: seq<Record>,
    absences: seq<Record>,
    users: seq<Record>)

  /** The object the store exports: every collection, a timestamp and a format version. */
  datatype ExportData = ExportData(
    patients: seq<Record>,
    appointments: seq<Record>,
    supplies: seq<Record>,
    absences: seq<Record>,
    users: seq<Record>,
    exportDate: string,
    version: string)

  const EXPORT_VERSION: string := "1.0"

  /**
    A bulk payload: per collection key, `Some(records)` when the key holds
    an array (an empty array included), `None` when the key is absent or
    holds a falsy value.
   */
  datatype ImportData = ImportData(
    patients: Option<seq<Record>>,
    appointments: Option<seq<Record>>,
    supplies: Option<seq<Record>>,
    absences: Option<seq<Record>>,
    users: Option<seq<Record>>)

  /** The slot's records when it has some, the current collection otherwise. */
  function Overlay(slot: Option<seq<Record>>, current: seq<Record>): (r: seq<Record>)
    ensures slot.Some? ==> r == slot.value
    ensures slot.None? ==> r == current
  {
    if slot.Some? then slot.value else current
  }

  /** The payload that carries no collection key. */
  const EMPTY_IMPORT: ImportData := ImportData(None, None, None, None, None)

  /**
    The whole store after a bulk import of `data` into `c`. A payload that
    carries no key (a primitive payload, whose keys all read as `undefined`)
    changes nothing; one that carries all five keys replaces everything.
   */
  function ApplyImport(c: Collections, data: ImportData): (r: Collections)
    ensures data == EMPTY_IMPORT ==> r == c
    ensures data.patients.Some? && data.appointments.Some? && data.supplies.Some?
              && data.absences.Some? && data.users.Some? ==>
            r == Collections(data.patients.value, data.appointments.value, data.supplies.value,
                             data.absences.value, data.users.value)
  {
    Collections(
      Overlay(data.patients, c.patients),
      Overlay(data.appointments, c.appointments),
      Overlay(data.supplies, c.supplies),
      Overlay(data.absences, c.absences),
      Overlay(data.users, c.users))
  }

  /** The snapshot exported from `c` at time `exportDate`. */
  function ExportOf(c: Collections, exportDate: string): (e: ExportData)
    ensures e.patients == c.patients && e.appointments == c.appointments && e.supplies == c.supplies
    ensures e.absences == c.absences && e.users == c.users
    ensures e.exportDate == exportDate && e.version == EXPORT_VERSION
  {
    ExportData(c.patients, c.appointments, c.supplies, c.absences, c.users, exportDate, EXPORT_VERSION)
  }

  /** An exported snapshot read back as a payload: all five keys are present. */
  function AsImport(e: ExportData): (d: ImportData)
    ensures d.patients == Some(e.patients) && d.appointments == Some(e.appointments)
    ensures d.supplies == Some(e.supplies) && d.absences == Some(e.absences) && d.users == Some(e.users)
  {
    ImportData(Some(e.patients), Some(e.appointments), Some(e.supplies), Some(e.absences), Some(e.users))
  }

  /** Deleting a patient: the patient's records and every appointment that references it. */
  function DeletePatientFrom(c: Collections, id: string): (r: Collections)
    ensures |r.patients| <= |c.patients| && |r.appointments| <= |c.appointments|
    ensures forall i :: 0 <= i < |r.patients| ==> !HasId(r.patients[i], id)
    ensures forall i :: 0 <= i < |r.appointments| ==> !FieldIs(r.appointments[i], PATIENT_ID_KEY, id)
    ensures r.supplies == c.supplies && r.absences == c.absences && r.users == c.users
  {
    c.(patients := RemoveWhere(c.patients, ID_KEY, id),
       appointments := RemoveWhere(c.appointments, PATIENT_ID_KEY, id))
  }

  // ---------------------------------------------------------------------
  // Properties of the whole-store operations

  /**
    Import replaces a collection exactly when the payload carries its key;
    every other collection is left as it was.
   */
  lemma ImportReplacesPerKey(c: Collections, data: ImportData)
    ensures data.patients.Some? ==> ApplyImport(c, data).patients == data.patients.value
    ensures data.appointments.Some? ==> ApplyImport(c, data).appointments == data.appointments.value
    ensures data.supplies.Some? ==> ApplyImport(c, data).supplies == data.supplies.value
    ensures data.absences.Some? ==> ApplyImport(c, data).absences == data.absences.value
    ensures data.users.Some? ==> ApplyImport(c, data).users == data.users.value
    ensures data.patients.None? ==> ApplyImport(c, data).patients == c.patients
    ensures data.appointments.None? ==> ApplyImport(c, data).appointments == c.appointments
    ensures data.supplies.None? ==> ApplyImport(c, data).supplies == c.supplies
    ensures data.absences.None? ==> ApplyImport(c, data).absences == c.absences
    ensures data.users.None? ==> ApplyImport(c, data).users == c.users
  {
  }

  /**
    Exporting a store and importing the export into any store -- a fresh
    one included -- reproduces all five collections exactly.
   */
  lemma ExportImportRoundTrip(c: Collections, target: Collections, exportDate: string)
    ensures ApplyImport(target, AsImport(ExportOf(c, exportDate))) == c
    ensures ExportOf(c, exportDate).version == EXPORT_VERSION
  {
  }

  /**
    What storage can hold after a reset: the reset clears every slot, and
    the save hooks then write back each collection the reset changed, so
    each slot is either absent or the serialised seed dataset.
   */
  predicate HoldsOnlySeeds(stored: ImportData, seeds: Collections)
  {
    && (stored.patients.None? || stored.patients == Some(seeds.patients))
    && (stored.appointments.None? || stored.appointments == Some(seeds.appointments))
    && (stored.supplies.None? || stored.supplies == Some(seeds.supplies))
    && (stored.absences.None? || stored.absences == Some(seeds.absences))
    && (stored.users.None? || stored.users == Some(seeds.users))
  }

  /** A load from storage that holds only seeds (or nothing) yields the seed datasets. */
  lemma LoadAfterResetYieldsSeeds(stored: ImportData, seeds: Collections)
    requires HoldsOnlySeeds(stored, seeds)
    ensures ApplyImport(seeds, stored) == seeds
  {
  }

  /**
    Deleting a patient removes exactly that patient's records and exactly
    the appointments whose `patientId` is its identifier, keeping the rest
    in order; supplies, absences and users are untouched.
   */
  lemma DeletePatientCascades(c: Collections, id: string)
    ensures forall x :: x in DeletePatientFrom(c, id).patients <==> x in c.patients && !HasId(x, id)
    ensures forall x :: x in DeletePatientFrom(c, id).appointments <==>
                          x in c.appointments && !FieldIs(x, PATIENT_ID_KEY, id)
    ensures forall x :: multiset(DeletePatientFrom(c, id).appointments)[x] ==
                          (if FieldIs(x, PATIENT_ID_KEY, id) then 0 else multiset(c.appointments)[x])
    ensures (forall i :: 0 <= i < |c.appointments| ==> !FieldIs(c.appointments[i], PATIENT_ID_KEY, id)) ==>
              DeletePatientFrom(c, id).appointments == c.appointments
    ensures DeletePatientFrom(c, id).supplies == c.supplies
    ensures DeletePatientFrom(c, id).absences == c.absences
    ensures DeletePatientFrom(c, id).users == c.users
  {
    RemoveWhereCounts(c.appointments, PATIENT_ID_KEY, id);
    if forall i :: 0 <= i < |c.appointments| ==> !FieldIs(c.appointments[i], PATIENT_ID_KEY, id) {
      RemoveWhereNoMatch(c.appointments, PATIENT_ID_KEY, id);
    }
  }

  // ---------------------------------------------------------------------
  // The store

  /**
    The provider's state: five collections, each overwritten by its
    operations. `seeds` are the built-in datasets the store falls back to.
   */
  class DataProvider {
    const seeds: Collections
    var patients: seq<Record>
    var appointments: seq<Record>
    var supplies: seq<Record>
    var absences: seq<Record>
    var users: seq<Record>

    function Contents(): Collections
      reads this
    {
      Collections(patients, appointments, supplies, absences, users)
    }

    /**
      Loads each collection from its storage slot when `stored` has it,
      from its seed dataset otherwise.
     */
    constructor (seeds: Collections, stored: ImportData)
      ensures this.seeds == seeds
      ensures Contents() == ApplyImport(seeds, stored)
    {
      this.seeds := seeds;
      patients := Overlay(stored.patients, seeds.patients);
      appointments := Overlay(stored.appointments, seeds.appointments);
      supplies := Overlay(stored.supplies, seeds.supplies);
      absences := Overlay(stored.absences, seeds.absences);
      users := Overlay(stored.users, seeds.users);
    }

    // -- patients

    /** `newId` is the identifier the random generator returned for this call. */
    method AddPatient(patient: Record, newId: string)
      modifies this
      ensures Contents() == old(Contents()).(patients := AddRecord(old(patients), patient, newId))
    {
      patients := AddRecord(patients, patient, newId);
    }

    method UpdatePatient(id: string, patientData: Record)
      modifies this
      ensures Contents() == old(Contents()).(patients := UpdateById(old(patients), id, patientData))
    {
      patients := UpdateById(patients, id, patientData);
    }

    method DeletePatient(id: string)
      modifies this
      ensures Contents() == DeletePatientFrom(old(Contents()), id)
    {
      patients := RemoveWhere(patients, ID_KEY, id);
      appointments := RemoveWhere(appointments, PATIENT_ID_KEY, id);
    }

    // -- appointments

    method AddAppointment(appointment: Record, newId: string)
      modifies this
      ensures Contents() == old(Contents()).(appointments := AddRecord(old(appointments), appointment, newId))
    {
      appointments := AddRecord(appointments, appointment, newId);
    }

    method UpdateAppointment(id: string, appointmentData: Record)
      modifies this
      ensures Contents() == old(Contents()).(appointments := UpdateById(old(appointments), id, appointmentData))
    {
      appointments := UpdateById(appointments, id, appointmentData);
    }

    method DeleteAppointment(id: string)
      modifies this
      ensures Contents() == old(Contents()).(appointments := RemoveWhere(old(appointments), ID_KEY, id))
    {
      appointments := RemoveWhere(appointments, ID_KEY, id);
    }

    // -- supplies

    method AddSupply(supply: Record, newId: string)
      modifies this
      ensures Contents() == old(Contents()).(supplies := AddRecord(old(supplies), supply, newId))
    {
      supplies := AddRecord(supplies, supply, newId);
    }

    method UpdateSupply(id: string, supplyData: Record)
      modifies this
      ensures Contents() == old(Contents()).(supplies := UpdateById(old(supplies), id, supplyData))
    {
      supplies := UpdateById(supplies, id, supplyData);
    }

    method DeleteSupply(id: string)
      modifies this
      ensures Contents() == old(Contents()).(supplies := RemoveWhere(old(supplies), ID_KEY, id))
    {
      supplies := RemoveWhere(supplies, ID_KEY, id);
    }

    // -- absences

    method AddAbsence(absence: Record, newId: string)
      modifies this
      ensures Contents() == old(Contents()).(absences := AddRecord(old(absences), absence, newId))
    {
      absences := AddRecord(absences, absence, newId);
    }

    method UpdateAbsence(id: string, absenceData: Record)
      modifies this
      ensures Contents() == old(Contents()).(absences := UpdateById(old(absences), id, absenceData))
    {
      absences := UpdateById(absences, id, absenceData);
    }

    method DeleteAbsence(id: string)
      modifies this
      ensures Contents() == old(Contents()).(absences := RemoveWhere(old(absences), ID_KEY, id))
    {
      absences := RemoveWhere(absences, ID_KEY, id);
    }

    // -- users

    method AddUser(user: Record, newId: string)
      modifies this
      ensures Contents() == old(Contents()).(users := AddRecord(old(users), user, newId))
    {
      users := AddRecord(users, user, newId);
    }

    method UpdateUser(id: string, userData: Record)
      modifies this
      ensures Contents() == old(Contents()).(users := UpdateById(old(users), id, userData))
    {
      users := UpdateById(users, id, userData);
    }

    method DeleteUser(id: string)
      modifies this
      ensures Contents() == old(Contents()).(users := RemoveWhere(old(users), ID_KEY, id))
    {
      users := RemoveWhere(users, ID_KEY, id);
    }

    // -- whole store

    /** `exportDate` is the clock reading taken for this call. */
    method ExporterDonnees(exportDate: string) returns (e: ExportData)
      ensures e == ExportOf(Contents(), exportDate)
      ensures e.version == EXPORT_VERSION && e.exportDate == exportDate
    {
      e := ExportData(patients, appointments, supplies, absences, users, exportDate, EXPORT_VERSION);
    }

    method ImporterDonnees(data: ImportData)
      modifies this
      ensures Contents() == ApplyImport(old(Contents()), data)
    {
      if data.patients.Some? { patients := data.patients.value; }
      if data.appointments.Some? { appointments := data.appointments.value; }
      if data.supplies.Some? { supplies := data.supplies.value; }
      if data.absences.Some? { absences := data.absences.value; }
      if data.users.Some? { users := data.users.value; }
    }

    method ReinitialiserDonnees()
      modifies this
      ensures Contents() == seeds
    {
      patients := seeds.patients;
      appointments := seeds.appointments;
      supplies := seeds.supplies;
      absences := seeds.absences;
      users := seeds.users;
    }
  }

  // ---------------------------------------------------------------------
  // Clients

  /**
    Adding a patient, adding an appointment that references it and then
    deleting the patient leaves both collections as they were.
   */
  method CascadeScenario(x: string, apptId: string)
  {
    var empty := Collections([], [], [], [], []);
    var store := new DataProvider(empty, ImportData(None, None, None, None, None));
    store.AddPatient(map["name" := Str("A")], x);
    assert |store.patients| == 1 && HasId(store.patients[0], x);
    store.AddAppointment(map[PATIENT_ID_KEY := Str(x), "date" := Str("2024-01-01")], apptId);
    assert |store.appointments| == 1;
    store.DeletePatient(x);
    assert store.patients == [] && store.appointments == [];
  }

  /**
    A reset followed by a fresh load from what storage then holds gives
    back the same five collections the reset left in memory.
   */
  method ReloadAfterReset(s: DataProvider, stored: ImportData) returns (t: DataProvider)
    requires HoldsOnlySeeds(stored, s.seeds)
    modifies s
    ensures s.Contents() == s.seeds
    ensures t.seeds == s.seeds && t.Contents() == s.Contents()
  {
    s.ReinitialiserDonnees();
    LoadAfterResetYieldsSeeds(stored, s.seeds);
    t := new DataProvider(s.seeds, stored);
  }

  /** Importing a payload that carries only patients leaves the appointments as they were. */
  method PartialImportScenario(store: DataProvider)
    modifies store
  {
    var before := store.appointments;
    var z: Record := map[ID_KEY := Str("1"), "name" := Str("Z")];
    store.ImporterDonnees(ImportData(Some([z]), None, None, None, None));
    assert store.patients == [z] && store.appointments == before;
  }
}
