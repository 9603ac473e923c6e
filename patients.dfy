/**
 * The patient routes of the backend: look a patient up by passport, list a
 * patient's diagnoses and immunizations, and record a new diagnosis. The
 * store's tables are sequences of rows held by a class; what the store
 * decides on its own (a failing query, the id and timestamp of a new row)
 * is passed in by the caller.
 */
module PatientRoutes {
  import opened Records
  import opened OneTimeRule

  /** What a handler sends back. */
  datatype Reply<T> =
    | Ok(body: T)                 // 200 with the data as the body
    | NotFound(message: string)   // 404 with `{ message }`
    | Failed(error: StoreError)   // 500 with the store's error object as the body
  {
    function Status(): (s: int)
      ensures s in {200, 404, 500}
      ensures s == 200 <==> Ok?
    {
      match this
      case Ok(_) => 200
      case NotFound(_) => 404
      case Failed(_) => 500
    }
  }

  /** `.order('created_at', { ascending: false })`: the most recent diagnosis comes first. */
  ghost predicate NewestFirst(s: seq<Diagnosis>) {
    forall i, j :: 0 <= i < j < |s| ==> s[i].createdAt >= s[j].createdAt
  }

  /** Puts `d` into a newest-first list at its place. */
  function InsertNewestFirst(d: Diagnosis, s: seq<Diagnosis>): (r: seq<Diagnosis>)
    requires NewestFirst(s)
    ensures NewestFirst(r)
    ensures multiset(r) == multiset(s) + multiset{d}
    ensures r[0] == d || r[0] == s[0]
    decreases |s|
  {
    if s == [] || d.createdAt >= s[0].createdAt then
      [d] + s
    else
      var rest := InsertNewestFirst(d, s[1..]);
      assert s == [s[0]] + s[1..];
      assert rest[0].createdAt <= s[0].createdAt;
      [s[0]] + rest
  }

  /** The rows of a query result arranged newest first. */
  function SortNewestFirst(s: seq<Diagnosis>): (r: seq<Diagnosis>)
    ensures NewestFirst(r)
    ensures multiset(r) == multiset(s)
  {
    if s == [] then []
    else
      assert s == [s[0]] + s[1..];
      InsertNewestFirst(s[0], SortNewestFirst(s[1..]))
  }

  /** `.eq('patient_id', id)` on the diagnoses table, in table order. */
  function DiagnosesOf(rows: seq<Diagnosis>, patientId: string): (r: seq<Diagnosis>)
    ensures forall d :: d in r <==> d in rows && d.patientId == patientId
    ensures forall d :: d in rows && d.patientId == patientId ==> multiset(r)[d] == multiset(rows)[d]
  {
    if rows == [] then []
    else
      assert rows == [rows[0]] + rows[1..];
      var rest := DiagnosesOf(rows[1..], patientId);
      if rows[0].patientId == patientId then [rows[0]] + rest else rest
  }

  /** `.eq('patient_id', id)` on the immunizations table, in table order. */
  function ImmunizationsOf(rows: seq<Immunization>, patientId: string): (r: seq<Immunization>)
    ensures forall x :: x in r <==> x in rows && x.patientId == patientId
    ensures forall x :: x in rows && x.patientId == patientId ==> multiset(r)[x] == multiset(rows)[x]
    ensures |r| <= |rows|
  {
    if rows == [] then []
    else
      assert rows == [rows[0]] + rows[1..];
      var rest := ImmunizationsOf(rows[1..], patientId);
      if rows[0].patientId == patientId then [rows[0]] + rest else rest
  }

  /** `.eq('passport_id', passportId)` on the patients table. */
  function PatientsWithPassport(rows: seq<Patient>, passportId: string): (r: seq<Patient>)
    ensures forall p :: p in r <==> p in rows && p.passportId == passportId
    ensures forall p :: p in rows && p.passportId == passportId ==> multiset(r)[p] == multiset(rows)[p]
    ensures |r| <= |rows|
  {
    if rows == [] then []
    else
      assert rows == [rows[0]] + rows[1..];
      var rest := PatientsWithPassport(rows[1..], passportId);
      if rows[0].passportId == passportId then [rows[0]] + rest else rest
  }

  /** No two patients share a passport identifier. */
  ghost predicate UniquePassports(rows: seq<Patient>) {
    forall i, j :: 0 <= i < j < |rows| ==> rows[i].passportId != rows[j].passportId
  }

  /** With unique passports a passport query finds one row when some patient has it, and none otherwise. */
  lemma {:induction false} PassportMatchesOne(rows: seq<Patient>, passportId: string)
    requires UniquePassports(rows)
    ensures |PatientsWithPassport(rows, passportId)| == (if exists p :: p in rows && p.passportId == passportId then 1 else 0)
  {
    if rows != [] {
      assert UniquePassports(rows[1..]) by {
        forall i, j | 0 <= i < j < |rows[1..]| ensures rows[1..][i].passportId != rows[1..][j].passportId {
          assert rows[1..][i] == rows[i + 1] && rows[1..][j] == rows[j + 1];
        }
      }
      PassportMatchesOne(rows[1..], passportId);
      if rows[0].passportId == passportId {
        forall p | p in rows[1..] ensures p.passportId != passportId {
          var k :| 0 <= k < |rows[1..]| && rows[1..][k] == p;
          assert rows[k + 1] == p;
        }
      } else {
        if exists p :: p in rows && p.passportId == passportId {
          var p :| p in rows && p.passportId == passportId;
          assert p in rows[1..];
        }
      }
    }
  }

  /** The store the routes read and write. */
  class PatientStore {
    var patients: seq<Patient>
    var diagnoses: seq<Diagnosis>
    var immunizations: seq<Immunization>

    /** The store's own constraints: a passport identifies one patient, an id one diagnosis. */
    ghost predicate Valid()
      reads this
    {
      UniquePassports(patients)
      && forall i, j :: 0 <= i < j < |diagnoses| ==> diagnoses[i].id != diagnoses[j].id
    }

    constructor (patients: seq<Patient>, diagnoses: seq<Diagnosis>, immunizations: seq<Immunization>)
      requires UniquePassports(patients)
      requires forall i, j :: 0 <= i < j < |diagnoses| ==> diagnoses[i].id != diagnoses[j].id
      ensures Valid()
      ensures this.patients == patients && this.diagnoses == diagnoses && this.immunizations == immunizations
    {
      this.patients := patients;
      this.diagnoses := diagnoses;
      this.immunizations := immunizations;
    }

    /**
     * GET `/:passportId`: the single patient with that passport, or 404
     * `{ message: 'Patient not found' }` when the query fails or finds none.
     */
    method GetByPassport(passportId: string, fault: Option<StoreError>) returns (reply: Reply<Patient>)
      requires Valid()
      ensures reply.Ok? <==> fault.None? && exists p :: p in patients && p.passportId == passportId
      ensures reply.Ok? ==> reply.body in patients && reply.body.passportId == passportId
      ensures !reply.Ok? ==> reply == NotFound("Patient not found")
    {
      var matches := PatientsWithPassport(patients, passportId);
      PassportMatchesOne(patients, passportId);
      if fault.Some? || |matches| != 1 {
        reply := NotFound("Patient not found");
      } else {
        assert matches[0] in matches;
        reply := Ok(matches[0]);
      }
    }

    /**
     * GET `/:id/diagnoses`: exactly the patient's diagnoses, newest first, or
     * 500 with the store's error.
     */
    method ListDiagnoses(patientId: string, fault: Option<StoreError>) returns (reply: Reply<seq<Diagnosis>>)
      ensures fault.Some? ==> reply == Failed(fault.value)
      ensures fault.None? ==> reply.Ok? && NewestFirst(reply.body)
      ensures fault.None? ==> forall d :: d in reply.body <==> d in diagnoses && d.patientId == patientId
      ensures fault.None? ==> forall d: Diagnosis :: d.patientId == patientId ==> multiset(reply.body)[d] == multiset(diagnoses)[d]
    {
      if fault.Some? {
        reply := Failed(fault.value);
      } else {
        var rows := DiagnosesOf(diagnoses, patientId);
        var sorted := SortNewestFirst(rows);
        forall d: Diagnosis | d.patientId == patientId ensures multiset(sorted)[d] == multiset(diagnoses)[d] {
          if d !in diagnoses {
            assert d !in rows;
          }
        }
        reply := Ok(sorted);
      }
    }

    /** GET `/:id/immunizations`: the patient's immunizations in table order, or 500 with the store's error. */
    method ListImmunizations(patientId: string, fault: Option<StoreError>) returns (reply: Reply<seq<Immunization>>)
      ensures fault.Some? ==> reply == Failed(fault.value)
      ensures fault.None? ==> reply.Ok? && forall x :: x in reply.body <==> x in immunizations && x.patientId == patientId
      ensures fault.None? ==> reply == Ok(ImmunizationsOf(immunizations, patientId))
    {
      if fault.Some? {
        reply := Failed(fault.value);
      } else {
        reply := Ok(ImmunizationsOf(immunizations, patientId));
      }
    }

    /**
     * POST `/:id/diagnoses`. For a one-time disease the matching rows of the
     * patient are looked up (returned as `lookup`), but nothing is done with
     * them: the row is inserted whether or not one exists. The insert either
     * fails, answering 500 with the store's error and leaving the table as it
     * was, or appends exactly one row and answers it. The reply type has no 400 case.
     * `newId` and `now` are what the store assigns to the new row.
     */
    method CreateDiagnosis(patientId: string, doctorId: string, diagnosisName: string, description: string,
                           newId: string, now: Timestamp, insertFault: Option<StoreError>)
      returns (reply: Reply<Diagnosis>, lookup: Option<seq<Diagnosis>>)
      requires Valid()
      requires forall d :: d in diagnoses ==> d.id != newId
      modifies this
      ensures Valid()
      ensures lookup.Some? <==> IsOneTimeDisease(diagnosisName)
      ensures lookup.Some? ==> lookup.value == MatchingDiagnoses(old(diagnoses), patientId, diagnosisName)
      ensures insertFault.Some? ==> reply == Failed(insertFault.value) && diagnoses == old(diagnoses)
      ensures insertFault.None? ==>
        var row := Diagnosis(newId, patientId, diagnosisName, description, now, doctorId, None);
        reply == Ok(row) && diagnoses == old(diagnoses) + [row]
      ensures reply.Status() in {200, 500}
      ensures patients == old(patients) && immunizations == old(immunizations)
    {
      lookup := None;
      if IsOneTimeDisease(diagnosisName) {
        var existing := MatchingDiagnoses(diagnoses, patientId, diagnosisName);
        lookup := Some(existing);
      }
      if insertFault.Some? {
        reply := Failed(insertFault.value);
      } else {
        var row := Diagnosis(newId, patientId, diagnosisName, description, now, doctorId, None);
        diagnoses := diagnoses + [row];
        reply := Ok(row);
      }
    }
  }

  /** Two rows of the patient with the disease both match it. */
  lemma BothMatch(rows: seq<Diagnosis>, patientId: string, name: string)
    requires |rows| == 2
    requires forall k :: 0 <= k < 2 ==> rows[k].patientId == patientId && SameDisease(rows[k].diagnosisName, name)
    ensures |MatchingDiagnoses(rows, patientId, name)| == 2
  {
    assert rows[1..][1..] == [];
  }

  /**
   * Recording measles twice for one patient stores two measles rows: the
   * second create is answered 200 and not 400 `REDUNDANT_DIAGNOSIS`, so the
   * backend alone does not keep one-time diseases unique per patient.
   */
  method RepeatedOneTimeDiagnosisIsStored(patient: Patient) returns (second: Reply<Diagnosis>, measlesRows: nat)
    ensures second.Ok? && second.Status() == 200
    ensures measlesRows == 2
  {
    MeaslesSpellings();
    var store := new PatientStore([patient], [], []);
    var first, lookup1 := store.CreateDiagnosis(patient.id, "doctor-id", "measles", "Test description", "d1", 1, None);
    assert lookup1 == Some([]);
    var lookup2;
    second, lookup2 := store.CreateDiagnosis(patient.id, "doctor-id", "MEASLES", "Test description", "d2", 2, None);
    BothMatch(store.diagnoses, patient.id, "measles");
    measlesRows := |MatchingDiagnoses(store.diagnoses, patient.id, "measles")|;
  }
}
